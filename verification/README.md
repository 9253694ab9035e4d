# Model of a proxy network's servers

The repository is the server side of a proxy network: an access server for clients, a relay for devices,
registries for ids, devices and server lists, and small libraries. This project models their logic in
Dafny and proves what the code keeps over whole runs. Each module follows one component:

- `AuthCache`, `AuthCacheRuns`, `AuthCacheTimes`: the access server's cache of authentication results. Requests for the same user and
  password share one query; a map, two pools, an LRU list, an update list, request lists and a dispatch
  list always agree, which is why an assertion in the tick holds, and in every run each request is
  answered once and in time, servers are asked exactly when they have to be, and nodes live exactly as long as
  they should.
- `Csv`, `CsvRoundTrip`, `CsvFields`: the CSV reader and writer, exactly which tables come back, and what is
  read from texts that anybody may have written.
- `ServerPool`: the pool that follows a published server list by a merge, with deferred creation and
  deletion of contexts, and routes by hash.
- `RelayNetwork`, `RelayRuns`, `RelaySteps`, `RelayInvariant`: the protocol between access server, relay and
  devices as a state machine over its message handlers, and the invariant of the whole network.
  `RelayTheorems`: what it means for every run. `RelayUploads`, `RelayReturns`, `RelayTotals`, `RelayReports`: the
  bytes in both directions and their totals, over whole runs. `RelayGrounds`, `RelayNames`: what devices and
  clients are told goes back to what this very client or device has said. `RelayProgress`, `RelayEndings`:
  clients get connected, and how that ends. `RelayCrashes`, `RelayOrderly`: which runs make
  the access server fail an assertion and which cannot. `RelayServices`, `RelayObjects`: the handlers in the
  form in which they change objects, and the objects driven by the events of a run.
- `Framing`: the loops that cut a byte stream into packets.
- `ServerId`: the id allocator with its checksum and shadow array, and the id center.
- `Socks5`, `HttpRequestLine`, `HttpHeader`, `HttpNames`: the parsers for clients.
- `IpLookup`: the range searches of the IP database in unsigned arithmetic.
- `DeviceIndex`, `Backend`, `ServerList`, `Crypto`: the selector's device index, the reconnecting backend
  connection, the versioned server list, and padded block encryption.
- `ServerListRuns`, `DeviceTimes`, `BackendTimes`: exactly when the server list is published, how long devices
  live and whom a selection gives, and when a backend connection is given up, asked or tried again.

Most components are written twice: as a function on values, about which runs and invariants are proved,
and as a class or a loop that changes its state in place, as the source does, proved equal to the function.
`Lists` holds what all intrusive lists need.

## Assumptions about what is not in the repository

The pools and lists come from the CoreX library, which is not part of this model. A pool is a map from ids to
nodes that never issues an id twice; a list holds a node at most once, and destroying a node unlinks it.
Time does not run backwards and counts from an epoch further back than every timeout. Links deliver in
order. A device answers each DNS query once and reports on a connection only after it was told to create
it. A packet header never announces less than its own size; what goes wrong otherwise is stated by
`EmptyNeverEnds`. The index of a server id is below 2^20.

## Where the code differs from what one would expect

The model follows the code; each point is a lemma.

- A relay that is full (`FullRelayCrashesProxy`), or a device whose first report on a connection is not
  ESTABLISHED (`RefusalCrashesProxy`), makes the access server fail a runtime assertion, exactly as
  `StepCrashesExactly` says; without these two it never fails (`OrderlyRunsDoNotCrash`).
- A message to destroy a relayed connection tells the device the port instead of its id exactly if the
  device has not reported the connection (`DestroyReadsExactly`). The access server never sends one.
- A cell that begins with a quote but needs no quoting is written as it is (`LoneQuoteLost`, and exactly which
  tables come back: `RoundTrip`).
- In an `https://` URL the host is always empty (`SecureLosesHost`).
- Credentials in a header line that arrives in two pieces are misread (`CutCredentials`), and those of a
  CONNECT header are forgotten between calls (`RawForgetsCredentials`). A CR LF that is cut in two does not
  end its line: the header goes on (`CutLineEnd`), or two lines become one (`CutInnerLineEnd`) and credentials
  in the second are forwarded (`CutForwardsCredentials`). Cuts elsewhere do not matter (`PiecesDoNotMatter`).
- A SOCKS5 request is taken to be everything that has arrived. What follows it is lost, and
  from 262 bytes on, itself included, it is killed. A host name of one or two bytes waits exactly until 10 bytes
  have arrived, and one of 255 bytes is always killed (`RequestParses`, `RequestParsesExactly`). The operation is looked at
  for IPv4 targets only (`OperationMattersExactly`).
- An addition to a server list starts the minute until publication again. What is published when is stated
  by `RunPublishesExactly`; with an addition in every minute nothing is ever published (`MayStarve`).
- Removing a server does not mark the list as changed (`RemovalIsNotPublished`); a full list of 125
  servers cannot be read by its clients (`ListReadsBack`). Before the first publication a client that holds
  another version than 0 gets no answer (`UnansweredExactly`).
- Replacing a device's binding does not move it to the lists of its new region (`ReplacedStaysBehind`); it is in
  them exactly if the keys are the same (`ListedUnderBoundExactly`).
- The distance of 3 s between attempts of a backend connection is kept within one set-up
  (`AttemptsKeepDistance`) and not across a new one (`SetUpForgetsDistance`).
- A CLOSED notice ends a ready SOCKS5 connection and is ignored for HTTP (`DeviceCloses`).
- The size of a whole message counts as transferred back, not that of its payload (`TotalsAreExact`).
- The search for IPv6 addresses has no adjustment for addresses from the last entry on: they are matched
  against what is stored behind the table (`GetIpv6Record`).

## Model

| member | source | states |
|---|---|---|
| AuthCache.WaitedOnIsNotIdle | cpp/src_app/server_proxy_access/client_auth_cache_manager.cpp:38-43 | the assertion in the tick: once overdue queries are gone, a node on which requests wait is never old enough to be evicted |
| AuthCache.PendingIsYoung | cpp/src_app/server_proxy_access/client_auth_cache_manager.cpp:29-49 | with nothing left to dispatch, every request still pending was made at most 15 s ago and waits on its own node |
| AuthCache.PrunedExactly | cpp/src_app/server_proxy_access/client_auth_cache_manager.cpp:29-43 | a tick removes exactly the nodes whose query is overdue or that nobody used for the timeout |
| AuthCache.EverybodyServed | cpp/src_app/server_proxy_access/client_auth_cache_manager.cpp:25-49 | a tick answers exactly those who no longer wait, once and in the order of the dispatch list: with null if the node is gone and with the node's result otherwise |
| AuthCache.DropNodeKeepsCore | cpp/src_app/server_proxy_access/client_auth_cache_manager.cpp:68-79 | releasing a node keeps map, pool, LRU list, update list, request lists and dispatch list in agreement |
| AuthCache.AnswerHeadKeepsCore | cpp/src_app/server_proxy_access/client_auth_cache_manager.cpp:44-48 | answering the head of the dispatch list keeps map, pools and lists in agreement, and the answer belongs to who asked |
| AuthCache.ReplyKeepsInv | cpp/src_app/server_proxy_access/client_auth_cache_manager.cpp:158-190 | a server reply makes the node ready and hands all its waiters to dispatch, keeping the invariant |
| AuthCache.RequestJoinsKeepsInv | cpp/src_app/server_proxy_access/client_auth_cache_manager.cpp:97-132 | a request that finds or makes a node keeps the invariant, stale nodes and coalescing included |
| AuthCache.RequestOrphanedKeepsInv | cpp/src_app/server_proxy_access/client_auth_cache_manager.cpp:104-111 | a request for which no node can be made awaits a null answer, keeping the invariant |
| AuthCache.WellFormedExactly | cpp/src_app/server_proxy_access/client_auth_cache_manager.cpp:81-95 | what is well formed: user and password of 1 to 127 characters with a colon between them, where the user has none |
| AuthCache.RequestAcceptedKeepsInv | cpp/src_app/server_proxy_access/client_auth_cache_manager.cpp:81-132 | every accepted request keeps the invariant and leaves the record of what was asked otherwise unchanged |
| AuthCache.StepsAreAccepted | cpp/src_app/server_proxy_access/client_auth_cache_manager.cpp:81-132 | recording a request, finding or making its node, and joining it add up to the one transition that the invariant is proved for |
| AuthCache.TickServes | cpp/src_app/server_proxy_access/client_auth_cache_manager.cpp:25-49 | the three loops of a tick: exactly the nodes that were neither overdue nor idle are left, everybody who does not wait on one of them is answered in order, nobody else is |
| AuthCacheRuns.RunKeepsInv | cpp/src_app/server_proxy_access/client_auth_cache_manager.cpp:25-190 | in every run of requests, replies and ticks, whatever was refused, all agreements hold |
| AuthCacheRuns.AskedAreSubmissions | cpp/src_app/server_proxy_access/client_auth_cache_manager.cpp:81-95 | the requests on record are exactly the accepted calls of the run |
| AuthCacheRuns.SubmissionIsRecorded | cpp/src_app/server_proxy_access/client_auth_cache_manager.cpp:81-95 | an accepted call stays on record with who asked for what and when |
| AuthCacheRuns.RepliesAreReceived | cpp/src_app/server_proxy_access/client_auth_cache_manager.cpp:158-190 | the replies on record are packets that arrived in the run |
| AuthCacheRuns.AnswersAreGood | cpp/src_app/server_proxy_access/client_auth_cache_manager.cpp:25-190 | in every run answers go to who asked, at most once each, a non-null result is one that a server sent in the run for a node of the very user and password that was asked about, and a request is pending or answered, never both |
| AuthCacheRuns.AnsweredInTime | cpp/src_app/server_proxy_access/client_auth_cache_manager.cpp:25-49 | in every run a request is answered, for good, by the first tick that comes more than 15 s after it |
| AuthCacheTimes.AskedExactly | cpp/src_app/server_proxy_access/client_auth_cache_manager.cpp:81-156 | in every run an event posts a query if and only if it is an accepted request whose user/pass has no node yet, and there is room for one, or whose node was last asked about at least 300000 ms ago; it posts exactly one, for that node and that user/pass |
| AuthCacheTimes.LivesExactly | cpp/src_app/server_proxy_access/client_auth_cache_manager.cpp:25-49 | in every run a tick leaves exactly the nodes that served a request or got a reply within the last 480 s, except those asked about more than 15 s ago and not heard of since |
| AuthCacheRuns.Drive | cpp/src_app/server_proxy_access/client_auth_cache_manager.cpp:25-190 | the manager, called for each event of a run in turn, ends in exactly the state that the run describes |
| AuthCache.AuthCacheManager.OnTick | cpp/src_app/server_proxy_access/client_auth_cache_manager.cpp:25-49 | the three loops over update list, LRU list and dispatch list change the manager as the tick on values does, for which TickServes says what is left |
| AuthCache.AuthCacheManager.RequestAuth | cpp/src_app/server_proxy_access/client_auth_cache_manager.cpp:81-132 | a call is accepted exactly if user and password are well formed and there is room for a request; then all its steps happen, else nothing; when it asks a server is stated by AuthCacheTimes.AskedExactly |
| AuthCache.AuthCacheManager.OnServerPacket | cpp/src_app/server_proxy_access/client_auth_cache_manager.cpp:158-190 | a packet for an unknown node or one that cannot be read changes nothing; any other hands the waiters of its node to dispatch as in ReplyKeepsInv |
| AuthCache.AuthCacheManager.AcquireCacheNode | cpp/src_app/server_proxy_access/client_auth_cache_manager.cpp:51-66 | a new node in pool and map, or none when the pool is full |
| AuthCache.AuthCacheManager.ReleaseCacheNode | cpp/src_app/server_proxy_access/client_auth_cache_manager.cpp:68-79 | the node leaves pool, map and both lists |
| AuthCache.AuthCacheManager.HitCache | cpp/src_app/server_proxy_access/client_auth_cache_manager.cpp:139-142 | the node becomes the most recently used one |
| AuthCache.AuthCacheManager.PerformAuthRequest | cpp/src_app/server_proxy_access/client_auth_cache_manager.cpp:144-156 | the query for the node's user/pass is posted and the node goes to the end of the update list |
| Lists.UnlinkMembers | cpp/src_app/server_proxy_access/client_auth_cache_manager.cpp:51-79 | unlinking takes out that element only, and the list stays free of duplicates |
| Lists.UnlinkPair | cpp/src_app/server_proxy_access/client_auth_cache_manager.cpp:51-79 | unlinking keeps the order of all others |
| Csv.ReplaceString | _3rd_source/rapidcsv.hpp:1572-1579 | replaces all matches found left to right without overlap, and ends |
| Csv.UnescapeEscape | _3rd_source/rapidcsv.hpp:1458-1531 | undoubling quotes undoes doubling them, for every text |
| Csv.WriteCsv | _3rd_source/rapidcsv.hpp:1458-1480 | the loop writes the encoding of the table, cell by cell |
| Csv.ParseCsv | _3rd_source/rapidcsv.hpp:1324-1415 | what is read does not depend on the size of the read buffer; what it is, is stated by CsvFields.AnyTextIsRead |
| Csv.FeedAppend | _3rd_source/rapidcsv.hpp:1324-1415 | reading is by character: two texts one after the other are read as one |
| CsvRoundTrip.CellRead | _3rd_source/rapidcsv.hpp:1324-1531 | a surviving cell comes back unchanged in front of its delimiter |
| CsvRoundTrip.BadTable | _3rd_source/rapidcsv.hpp:1324-1531 | a table with a cell that does not survive does not come back |
| CsvRoundTrip.RoundTrip | _3rd_source/rapidcsv.hpp:1324-1531 | reading what was written gives back table and line break choice if and only if every cell satisfies a condition on its own characters |
| CsvRoundTrip.WriteThenRead | _3rd_source/rapidcsv.hpp:1324-1531 | a table written by the loop and read by the buffered loop comes back if and only if every cell satisfies the condition of RoundTrip, for any buffer size |
| CsvRoundTrip.PlainTablesSurvive | _3rd_source/rapidcsv.hpp:1324-1480 | tables of non-empty rows whose unquoted cells have no CR and do not begin with the quote come back |
| CsvRoundTrip.LoneQuoteLost | _3rd_source/rapidcsv.hpp:1458-1480 | a cell that is one quote is written without quotes and does not come back |
| CsvFields.AnyTextIsRead | _3rd_source/rapidcsv.hpp:1324-1415 | any text of lines of fields, each field in quotes or not, whether it needs them or not (section 2 of RFC 4180): the values of all lines that are not skipped as empty or as comments come out in order, and CR LF is told from LF by whether at least half of the line breaks have a CR |
| CsvFields.QuotedCellIsRead | _3rd_source/rapidcsv.hpp:1515-1531 | every cell text comes back from quotes with its quotes doubled, whether it needed quotes or not, in front of either line break and at the end |
| CsvFields.FieldRead | _3rd_source/rapidcsv.hpp:1324-1531 | a field in quotes or without, at any place where a cell begins, is read as it is written, and its value is the text it was written for |
| ServerPool.DiffIsExact | cpp/src_app/lib_server_util/service_client_hash_pool.cpp:70-116 | what stays and what comes in are together exactly the new list, repeated ids or not |
| ServerPool.DiffKeepsUnchanged | cpp/src_app/lib_server_util/service_client_hash_pool.cpp:70-116 | with unique ids an entry stays exactly if the new list has it with the same address |
| ServerPool.SortedListIsUnique | cpp/src_app/lib_server_util/service_client_hash_pool.cpp:131-141 | a list sorted by unique ids is determined by its contents |
| ServerPool.RoutingIgnoresHistory | cpp/src_app/lib_server_util/service_client_hash_pool.cpp:40-56 | two pools that hold the same servers send every hash to the same one |
| ServerPool.ServiceClientHashPool.PostMessage | cpp/src_app/lib_server_util/service_client_hash_pool.cpp:40-56 | posts only to the server that the hash selects, and does so if it is connected |
| ServerPool.ServiceClientHashPool.UpdateServerList | cpp/src_app/lib_server_util/service_client_hash_pool.cpp:58-116 | every old context stays or waits for deletion, every new entry has a fresh context; with unique ids unchanged entries keep their context |
| ServerPool.ServiceClientHashPool.Tick | cpp/src_app/lib_server_util/service_client_hash_pool.cpp:118-155 | new contexts join in order of id, dropped ones are freed once, closed ones reconnect |
| ServerPool.ServiceClientHashPool.Reconcile | cpp/src_app/lib_server_util/service_client_hash_pool.cpp:58-155 | after update and tick the pool is sorted and holds exactly the new list; the same context objects for unchanged entries, all other old ones freed |
| ServerPool.ServiceClientHashPool.OnPeerClose | cpp/src_app/lib_server_util/service_client_hash_pool.cpp:157-161 | the context waits to be closed, and is in at most one list at a time |
| ServerPool.ServiceClientHashPool.Clean | cpp/src_app/lib_server_util/service_client_hash_pool.cpp:10-38 | in the end every context that was ever made has been freed exactly once |
| ServerPool.Follow | cpp/src_app/lib_server_util/service_client_hash_pool.cpp:40-155 | a pool that follows any series of lists, with connections closed by their peers in between, holds each list in turn, keeps the contexts of unchanged entries if ids are unique, frees the others, and posts a message only to the context that the hash selects among the last list, whatever came before |
| RelayNetwork.ClientHandlersAdvance | cpp/src_app/server_proxy_access/client_connection_manager.cpp:82-122 | no handler of client data or close moves the phase back or into another branch |
| RelayNetwork.ServiceHandlersAdvance | cpp/src_app/server_proxy_access/client_connection_manager.cpp:675-759 | no authentication result and no device selection moves the phase back or into another branch |
| RelayNetwork.RelayHandlersAdvance | cpp/src_app/server_proxy_access/client_connection_manager.cpp:793-964 | no notice, destroy message or data from the relay moves the phase back or into another branch |
| RelayNetwork.NotifyCrashesExactly | cpp/src_app/server_proxy_access/client_connection_manager.cpp:804-857 | the runtime assertion on notices fails exactly if a connection that waits to be established hears anything but ESTABLISHED |
| RelayNetwork.ChunksJoin | cpp/src_app/server_proxy_access/client_connection_manager.cpp:424-451 | an upload is cut into non-empty payloads of at most 4096 bytes that join to the upload |
| RelayNetwork.RefusedExactly | cpp/src_app/server_relay_device/relay_service._data.cpp:88-122 | a message of a device is refused exactly if it is a report on a known connection that names no state |
| RelayNetwork.PortReadBack | cpp/src_app/server_relay_device/relay_connection_manager.hpp:4-8 | a port written into the union is read back, whatever the rest of the union held |
| RelaySteps.OnInputGood | cpp/src_app/server_proxy_access/client_connection_manager.cpp:82-112 | what client data makes the access server send carries exactly what it records as posted, for the right connection and only when ready |
| RelaySteps.OnNotifyGood | cpp/src_app/server_proxy_access/client_connection_manager.cpp:793-866 | what an ESTABLISHED notice makes the access server send, the upload of a plain request header, carries exactly what it records as posted, and only for the connection of the notice |
| RelaySteps.ApplyKeepsInv | cpp/src_app/server_proxy_access/client_connection_manager.cpp:82-998 | every effect on one connection that is described by OnInputGood and OnNotifyGood keeps the invariant of the whole network |
| RelayInvariant.AnsweredAgrees | cpp/src_app/server_relay_device/relay_service._ctrl.cpp:46-83 | a name is being resolved in one place at a time, and until then nobody was told to create the connection |
| RelayInvariant.ReportKeepsInv | cpp/src_app/server_relay_device/relay_service._data.cpp:99-110 | overwriting the union with the device's id keeps the invariant of the network |
| RelayInvariant.PushKeepsFlow | cpp/src_app/server_relay_device/relay_service._proxy.cpp:128-162 | a payload moves from the link between the servers to the link to the device: nothing is lost, doubled or reordered |
| RelayInvariant.AddedKeepsInv | cpp/src_app/server_relay_device/relay_service._proxy.cpp:69-98 | a new context, with its port in the union and its command on the way, keeps the invariant |
| RelayInvariant.CreateKeepsInv | cpp/src_app/server_relay_device/relay_service._proxy.cpp:49-98 | every outcome of a create request keeps the invariant: no device, no room, address, name, or neither |
| RelayInvariant.StepKeepsInv | cpp/src_app/server_relay_device/relay_service._proxy.cpp:14-193 | every step of access server, relay, clients and devices keeps the invariant |
| RelayInvariant.RunKeepsInv | cpp/src_app/server_relay_device/relay_service._proxy.cpp:14-193 | every run keeps the invariant of the network, for any interleaving of access server, relay, clients and devices |
| RelayTheorems.UnionReadSafely | cpp/src_app/server_relay_device/relay_connection_manager.hpp:4-14 | whenever data or totals for a device, or a resolved name, make the relay read the union, it holds the device-side id after establishment and the port before it, in every run |
| RelayTheorems.PostsAreEarned | cpp/src_app/server_proxy_access/client_connection_manager.cpp:331-866 | in every run data is posted only after an accepted account, a device selection, a create request and an ESTABLISHED notice of the same connection, in this order |
| RelayTheorems.StepAdvances | cpp/src_app/server_proxy_access/client_connection_manager.cpp:82-964 | in one step a connection keeps or advances its phase or is gone, and ids are not used twice |
| RelayTheorems.RunAdvances | cpp/src_app/server_proxy_access/client_connection_manager.cpp:82-964 | over any run a phase never decreases and never changes between SOCKS5, CONNECT and plain HTTP |
| RelayTheorems.DestroyReadsSafely | cpp/src_app/server_relay_device/relay_service._proxy.cpp:100-126 | a message to destroy a connection that the access server was told of reads the device-side id from the union, however much later it comes |
| RelayTheorems.DestroyReadsExactly | cpp/src_app/server_relay_device/relay_service._proxy.cpp:100-126 | for any relayed connection a message to destroy it reads a device-side id if and only if the device has reported one; otherwise the device is told the port |
| RelayTheorems.DeletedStaysDeleted | cpp/src_app/server_relay_device/device_manager.hpp:35-45 | over any run a device that was marked as deleted is never found again, even if one joins under its id |
| RelayGrounds.DevicesHearTheirIds | cpp/src_app/server_relay_device/relay_service._proxy.cpp:128-193 | in every run each payload and each total that reaches a device names the connection by an id that this very device gave in an ESTABLISHED report on this very connection |
| RelayNames.DevicesHearLatestIds | cpp/src_app/server_relay_device/relay_service._data.cpp:99-110 | in every run an event gives a device at most one message more, which names its connection by the id in the last ESTABLISHED report on it that the relay has taken |
| RelayGrounds.DevicesAreToldTargets | cpp/src_app/server_relay_device/relay_service._proxy.cpp:49-98 | in every run a device that is told to connect or to resolve a name was selected for the client of that relayed connection; the client asked for this port modulo 65536 and for this address or name, or else for a name to which this very device gave the address, its IPv6 address if it gave one |
| RelayGrounds.AnswersAreTold | cpp/src_app/server_relay_device/relay_service._ctrl.cpp:46-83 | in every run taking an answer off the link tells its device to connect to the IPv6 address, or else to the IPv4 address, at the port of the target; an answer without an address leads to nothing |
| RelayGrounds.ConnectionsAreEarned | cpp/src_app/server_proxy_access/client_connection_manager.cpp:331-866 | in every run a client connection that waits for its target or got further has given credentials (and its header is the one given with them), was accepted, and has the device selected for it |
| RelayGrounds.ReadyIsReported | cpp/src_app/server_relay_device/relay_service._data.cpp:88-122 | in every run a connected client is relayed by a device that was selected for it and has reported the connection as established |
| RelayUploads.SentIsUploaded | cpp/src_app/server_proxy_access/client_connection_manager.cpp:424-451 | what is recorded as sent for a connection is what the events of the run upload for it: the data of a ready connection and the header of a plain request |
| RelayUploads.UploadsAreWhole | cpp/src_app/server_proxy_access/client_connection_manager.cpp:424-451 | in every run, what a ready client uploads is posted as a whole and in order |
| RelayUploads.HeaderGoesFirst | cpp/src_app/server_proxy_access/client_connection_manager.cpp:850-858 | in every run, the rebuilt header of a plain request is posted as a whole when its connection is established |
| RelayUploads.DeliveredInOrder | cpp/src_app/server_relay_device/relay_service._proxy.cpp:128-162 | per relayed connection, for any interleaving: what reached the device is a prefix of the bytes that its client uploaded over the run, in payloads of 1 to 4096 bytes, and while link and device are there the rest is exactly what is on its way |
| RelayReturns.ReturnedInOrder | cpp/src_app/server_relay_device/relay_service._data.cpp:135-161 | per relayed connection, for any interleaving: what the client got, data message by message and notices of its state between them, is a prefix of what the device posted and reported over the run, and while the client is connected the rest is exactly what is on the two links |
| RelayTotals.TotalsAreExact | cpp/src_app/server_proxy_access/client_connection_manager.cpp:945-998 | in every run the totals of a connection are exactly the bytes its client uploaded and the sizes of the messages that came back for it, and less than 1000 of either is not reported |
| RelayReports.TotalsFit | cpp/src_app/server_relay_device/relay_service._proxy.cpp:164-193 | in every run a total of uploaded bytes that a device is told counts exactly the bytes it was given before, and the totals of what came back never get less and are never too large |
| RelayTheorems.StepCrashesExactly | cpp/src_app/server_proxy_access/client_connection_manager.cpp:804-857 | an event makes the access server fail its assertion if and only if it delivers a notice other than ESTABLISHED to a connection that waits to be established |
| RelayProgress.ClientIsConnected | cpp/src_app/server_proxy_access/client_connection_manager.cpp:82-866 | in each of the three branches and for each kind of target: from any state in which nothing is under way and the relay has room, a client that comes is connected, for the device selected for it and the relayed connection that this device has established |
| RelayEndings.ClientCloses | cpp/src_app/server_proxy_access/client_connection_manager.cpp:114-122 | a client that closes moves a ready SOCKS5 connection into its closing phase, and no other |
| RelayEndings.RelayDestroys | cpp/src_app/server_proxy_access/client_connection_manager.cpp:868-943 | a destroy message moves a connection that waits or is ready into the closing phase of its branch, and no other |
| RelayEndings.DeviceCloses | cpp/src_app/server_proxy_access/client_connection_manager.cpp:804-866 | a CLOSED notice ends a ready SOCKS5 connection; HTTP connections take no notice |
| RelayEndings.EndedUploadsNothing | cpp/src_app/server_proxy_access/client_connection_manager.cpp:82-122 | in every run a connection in a closing phase stays in it until it is gone, and nothing is uploaded for it any more |
| RelayProgress.NoDeviceIsIgnored | cpp/src_app/server_proxy_access/client_connection_manager.cpp:704-722 | a SOCKS5 connection for which no device was found stays as it is until it is gone, and the relay is not asked |
| RelayCrashes.FullRelayCrashesProxy | cpp/src_app/server_relay_device/relay_service._proxy.cpp:69-77 | for every capacity, a run with never more than one client connected, in which clients come and leave until the relay is full and the next one makes the access server fail its assertion |
| RelayCrashes.FullRelayCloses | cpp/src_app/server_relay_device/relay_service._proxy.cpp:69-77 | in any state in which the relay is full and no notice is under way, taking a create request for a known device off the link makes the access server fail its assertion |
| RelayCrashes.MissingDeviceCloses | cpp/src_app/server_relay_device/relay_service._proxy.cpp:49-67 | a client whose device is not there or was deleted gets into the closing phase of its branch, and nobody crashes |
| RelayCrashes.RefusalCrashesProxy | cpp/src_app/server_relay_device/relay_service._data.cpp:88-122 | for every capacity above 0, a run in which a device that reports CLOSED for its first connection makes the access server fail its assertion |
| RelayOrderly.OrderlyRunsDoNotCrash | cpp/src_app/server_proxy_access/client_connection_manager.cpp:804-857 | in every run in which the relay has room for each create request it takes and the first report of a device on a connection is ESTABLISHED, the assertion never fails |
| RelayServices.ClientConnection.PostChunks | cpp/src_app/server_proxy_access/client_connection_manager.cpp:437-447 | the upload loop posts exactly the payloads of the upload, in order |
| RelayServices.ClientConnection.UploadData | cpp/src_app/server_proxy_access/client_connection_manager.cpp:424-451 | an upload is posted in full through the loop, then accounted for, and nothing happens without a relay |
| RelayServices.ClientConnection.TryUpdateDataTransferSize | cpp/src_app/server_proxy_access/client_connection_manager.cpp:966-998 | totals are reported once 1000 bytes were transferred either way since the last report |
| RelayServices.ClientConnection.OpenRemoteConnection | cpp/src_app/server_proxy_access/client_connection_manager.cpp:761-791 | one create request with the device and target is posted and the connection waits to be established, in each of the three branches |
| RelayServices.ClientConnection.OnAuthResult | cpp/src_app/server_proxy_access/client_connection_manager.cpp:675-702 | a device of the account's region is requested for this connection exactly if the result authorises it; a refused account changes nothing |
| RelayServices.ClientConnection.OnDeviceSelected | cpp/src_app/server_proxy_access/client_connection_manager.cpp:704-759 | a chosen device is remembered, and HTTP connections are opened at once |
| RelayServices.ClientConnection.OnRelaySideConnectionStateChange | cpp/src_app/server_proxy_access/client_connection_manager.cpp:793-866 | a notice changes the connection and posts the header of a plain request, or sets the assertion flag, as RelayNetwork.NotifyCrashesExactly describes |
| RelayServices.ClientConnection.OnDestroyConnection | cpp/src_app/server_proxy_access/client_connection_manager.cpp:868-943 | a destroy message moves a connection that waits or is ready into the closing phase of its branch |
| RelayServices.ClientConnection.OnData | cpp/src_app/server_proxy_access/client_connection_manager.cpp:82-112 | client data is given to the handler of the phase, which opens, uploads or goes on to the next phase of its branch |
| RelayServices.ClientConnection.OnPeerClose | cpp/src_app/server_proxy_access/client_connection_manager.cpp:114-122 | a ready SOCKS5 connection whose client closes goes into its closing phase |
| RelayServices.ClientConnection.OnRelaySidePushData | cpp/src_app/server_proxy_access/client_connection_manager.cpp:945-964 | the size of the whole message that comes back is added to the total, and reported if due |
| RelayServices.DeviceRelayService.OnProxyCreateConnection | cpp/src_app/server_relay_device/relay_service._proxy.cpp:49-98 | a create request is refused without a device or without room; otherwise a new context remembers it and its device is told to connect or to resolve the name |
| RelayServices.DeviceRelayService.OnProxyPushData | cpp/src_app/server_relay_device/relay_service._proxy.cpp:128-162 | data goes to the device of its context under the id in the union, only if both ids match and the device is found; which id that is, is stated by RelayNames.DevicesHearLatestIds |
| RelayServices.DeviceRelayService.OnProxyNotifyConnectionState | cpp/src_app/server_relay_device/relay_service._proxy.cpp:164-193 | transferred totals go to the device of the context, what was uploaded as written and what came back as read |
| RelayServices.DeviceRelayService.OnTerminalDnsQueryResp | cpp/src_app/server_relay_device/relay_service._ctrl.cpp:46-83 | a resolved name makes the device connect to the IPv6 address, or else the IPv4 address, at the port read from the union; that it is the port asked for is stated by RelayGrounds.AnswersAreTold |
| RelayServices.DeviceRelayService.OnTerminalData | cpp/src_app/server_relay_device/relay_service._data.cpp:88-161 | a report overwrites the union on ESTABLISHED and is passed on as a notice; data is passed back to the client connection of the context |
| RelayObjects.Drive | cpp/src_app/server_relay_device/relay_service._proxy.cpp:14-193 | the objects of access server and relay, called for each event of a run in turn, end in exactly the state that the run describes |
| Framing.OnData | cpp/src_app/server_relay_device/relay_service.cpp:89-144 | the loop dispatches the packets at the front of the buffer, and ends |
| Framing.PacketsAreDispatched | cpp/src_app/lib_backend_connection/backend_connection.cpp:109-136 | whatever packets were sent are dispatched, those and no others, and exactly their bytes are consumed |
| Framing.DeliverIsExact | cpp/src_app/server_relay_device/relay_service.cpp:89-144 | an accepted call consumed whole packets, each dispatched once and in order, and left nothing complete behind |
| Framing.DeliverMore | cpp/src_app/server_relay_device/relay_service.cpp:89-144 | more bytes go on where the call with fewer stopped |
| Framing.CutsDoNotMatter | cpp/src_app/server_relay_device/relay_service.cpp:89-144 | however the stream is cut into calls: the same dispatches, the same refusal, the same bytes waiting |
| Framing.TurnStaysExactly | cpp/src_app/server_relay_device/relay_service.cpp:89-144 | for any headers, a turn of the loop makes no progress if and only if the header announces the size 0 |
| Framing.EndsWithoutEmpty | cpp/src_app/server_relay_device/relay_service.cpp:89-144 | without such a header the loop ends after at most as many turns as there are bytes |
| Framing.EmptyNeverEnds | cpp/src_app/server_relay_device/relay_service.cpp:89-144 | with such a header at the front, if it is accepted, every turn finds the same bytes again |
| Framing.TurnsAreDelivered | cpp/src_app/server_relay_device/relay_service.cpp:89-144 | if no header announces less than its own size, the turns are those of OnData |
| ServerId.OneFlipShows | cpp/src_app/lib_server_util/server_id_manager.cpp:34-42 | any single flipped bit of index or random word changes the checksum |
| ServerId.UnpackPack | cpp/src_app/lib_server_util/server_id_manager.cpp:44-55 | index and random word can be taken out of an id again if and only if the index is below 2^20 |
| ServerId.PackUnpack | cpp/src_app/lib_server_util/server_id_manager.cpp:63-72 | an id with a matching checksum is the packing of its parts |
| ServerId.GenerateRandom | cpp/src_app/lib_server_util/server_id_manager.cpp:30-32 | the random word is never zero |
| ServerId.AcquireBooks | cpp/src_app/lib_server_util/server_id_manager.cpp:44-55 | a new id is entered under a free index, and the shadow array keeps agreeing with the pool |
| ServerId.RegainBooks | cpp/src_app/lib_server_util/server_id_manager.cpp:57-86 | a regained id is the old one, its assertion holds, and no id is given only if no index is free |
| ServerId.RequestKeepsInv | cpp/src_app/server_server_id_center/_main.cpp:40-66 | a request keeps all clients on different indices |
| ServerId.CloseKeepsInv | cpp/src_app/server_server_id_center/_main.cpp:68-75 | a leaving client's id is released, and the assertion on that holds |
| ServerId.IdsAreExclusive | cpp/src_app/server_server_id_center/_main.cpp:40-75 | in every run no two clients hold the same index, no assertion fails, a slot is non-zero exactly if its index is given away, and exactly connected clients' indices are |
| ServerId.ReleasedIsRegained | cpp/src_app/lib_server_util/server_id_manager.cpp:57-112 | a released id is regained unchanged while its slot is free, and everything is as before |
| ServerId.NewcomerIsServed | cpp/src_app/server_server_id_center/_main.cpp:40-75 | in every run a newcomer that asks is given an id unless every single index is held by a connected client; nobody else is affected |
| ServerId.RegainedExactly | cpp/src_app/lib_server_util/server_id_manager.cpp:57-112 | an id that a client had at any time of a run is given again, unchanged, at any later time if and only if its slot is free then, that is, if no connected client holds its index |
| ServerId.ServerIdManager.AcquireServerId | cpp/src_app/lib_server_util/server_id_manager.cpp:44-55 | a free index, if there is one, is packed with a fresh random word, which is entered in its slot of the array |
| ServerId.ServerIdManager.RegainServerId | cpp/src_app/lib_server_util/server_id_manager.cpp:57-86 | the array and the pool take the old id back exactly if it is regainable; every reason against that leads to a new id |
| ServerId.ServerIdManager.ReleaseServerId | cpp/src_app/lib_server_util/server_id_manager.cpp:88-112 | an id is released from array and pool exactly if it is in the books; the assertion on its random word fails exactly for an index in range with the word 0 |
| ServerId.ServerIdCenterService.OnClientPacket | cpp/src_app/server_server_id_center/_main.cpp:40-66 | only a first, readable request for an id is accepted, and answered with the old and the new id; anything else changes nothing; clients stay on different indices |
| ServerId.ServerIdCenterService.OnClientClose | cpp/src_app/server_server_id_center/_main.cpp:68-75 | a leaving client's id is released; neither the assertion on that nor the one on its random word fails |
| Socks5.GreetingParses | cpp/src_app/server_proxy_access/client_connection_manager.cpp:142-187 | a greeting is consumed whole whatever follows, and user/pass is chosen exactly if it is offered (section 3 of RFC 1928) |
| Socks5.GreetingWaits | cpp/src_app/server_proxy_access/client_connection_manager.cpp:124-157 | a proper prefix of a greeting is not consumed and changes nothing |
| Socks5.AcceptedIsGreeting | cpp/src_app/server_proxy_access/client_connection_manager.cpp:142-187 | whatever makes the connection go on is a greeting and is consumed whole; only one without methods is killed; anything else waits |
| Socks5.UserPassParses | cpp/src_app/server_proxy_access/client_connection_manager.cpp:287-329 | name and password come out as the key, and their full length is consumed (section 2 of RFC 1929) |
| Socks5.UserPassWaits | cpp/src_app/server_proxy_access/client_connection_manager.cpp:287-310 | a proper prefix of a message with name and password is not consumed and changes nothing |
| Socks5.AcceptedIsUserPass | cpp/src_app/server_proxy_access/client_connection_manager.cpp:294-312 | what is accepted as name and password is the encoding of one pair |
| Socks5.OtherAuthInfo | cpp/src_app/server_proxy_access/client_connection_manager.cpp:287-329 | without name and password one byte is consumed and the account of the client address is asked for; any other version, and nothing else, closes the connection |
| Socks5.RequestParses | cpp/src_app/server_proxy_access/client_connection_manager.cpp:353-422 | a request with anything behind it, by the number of bytes that have arrived: below 10 it waits, from 262 on it is killed, in between it is opened, unless refused for its operation, and everything is consumed (section 4 of RFC 1928) |
| Socks5.RequestParsesExactly | cpp/src_app/server_proxy_access/client_connection_manager.cpp:353-422 | a CONNECT request is opened and consumed, itself and nothing else, if and only if it is for an address or a name of 3 to 254 bytes and nothing follows it; it waits if and only if fewer than 10 bytes have arrived for a short name |
| Socks5.OperationMattersExactly | cpp/src_app/server_proxy_access/client_connection_manager.cpp:353-422 | whatever follows a request, its operation makes a difference if and only if the target is an IPv4 address, it is not CONNECT and fewer than 252 bytes follow; then the request is refused |
| Socks5.RequestWaits | cpp/src_app/server_proxy_access/client_connection_manager.cpp:353-400 | a proper prefix of a request is not consumed and changes nothing |
| Socks5.OpenedIsRequest | cpp/src_app/server_proxy_access/client_connection_manager.cpp:353-422 | whatever is opened is a request for that address, for CONNECT if it is an IPv4 address, and everything is consumed |
| Socks5.RequestKilledExactly | cpp/src_app/server_proxy_access/client_connection_manager.cpp:353-412 | a request is killed exactly for its length, version, reserved byte, type of address or, for IPv4, its operation |
| Socks5.ClientConnection.OnS5Challenge | cpp/src_app/server_proxy_access/client_connection_manager.cpp:142-187 | the scan of the offered methods over the buffer finds user/pass exactly if it is offered |
| Socks5.ClientConnection.OnS5ClientAuth | cpp/src_app/server_proxy_access/client_connection_manager.cpp:287-329 | the key made in the buffer; the buffer is left alone while anything is missing |
| HttpRequestLine.ConnectParses | cpp/src_app/server_proxy_access/client_connection_manager.cpp:208-237 | a CONNECT line, in any letters, gives host and port, 80 by default and otherwise the number behind the colon modulo 65536 |
| HttpRequestLine.PlainIsRewritten | cpp/src_app/server_proxy_access/client_connection_manager.cpp:239-285 | an absolute http URL, the scheme in any letters, or one without a scheme gives host and port, and a request line with the path only |
| HttpRequestLine.ConnectPort | cpp/src_app/server_proxy_access/client_connection_manager.cpp:208-237 | the port of a CONNECT line in decimal digits, up to 65535, is the number they stand for |
| HttpRequestLine.PlainPort | cpp/src_app/server_proxy_access/client_connection_manager.cpp:239-285 | the same for the port in an absolute URL |
| HttpRequestLine.SecureLosesHost | cpp/src_app/server_proxy_access/client_connection_manager.cpp:256-283 | for every https URL the second slash of the scheme is taken for the path and no host is found |
| HttpRequestLine.FindEnd | cpp/src_app/server_proxy_access/client_connection_manager.cpp:211-222 | the loop that looks for the end of the host |
| HttpHeader.HeaderIsRewritten | cpp/src_app/server_proxy_access/client_connection_manager.cpp:555-620 | a whole header is rebuilt line by line: Proxy-* lines dropped, Connection replaced by close, credentials and content length of the last lines that give them, exactly the header consumed (section 3.2.2 of RFC 9112) |
| HttpNames.NamedLine | cpp/src_app/server_proxy_access/client_connection_manager.cpp:577-605 | a whole line under any spelling of the four names, and with any value: both Proxy-* lines are dropped, Connection becomes Connection: close, credentials and length are read from the value, credentials of fewer than six characters kill the connection |
| HttpNames.OtherLine | cpp/src_app/server_proxy_access/client_connection_manager.cpp:577-605 | any other line, and one that ends after one of the four names, is kept as it is |
| HttpNames.RawLine | cpp/src_app/server_proxy_access/client_connection_manager.cpp:453-500 | a whole line of a CONNECT request: credentials are read under any spelling of their name, too short ones kill the connection, any other line is skipped |
| HttpHeader.FeedTwice | cpp/src_app/server_proxy_access/client_connection_manager.cpp:555-582 | going on with the next piece after a clean cut is going on with the whole |
| HttpHeader.PiecesDoNotMatter | cpp/src_app/server_proxy_access/client_connection_manager.cpp:555-620 | for any pieces that cut neither a CR LF nor a line with credentials: the same header, credentials, content length and end |
| HttpHeader.CutCredentials | cpp/src_app/server_proxy_access/client_connection_manager.cpp:580-592 | a cut in a line with credentials, anywhere: by how much of the line comes in the second piece they are read beyond their end, refused or cut off |
| HttpHeader.CutIsTwoPieces | cpp/src_app/server_proxy_access/client_connection_manager.cpp:555-582 | a cut is a header that arrives in two calls |
| HttpHeader.CutLineEnd | cpp/src_app/server_proxy_access/client_connection_manager.cpp:561-571 | after any lines and before anything, a cut inside the last CR LF hides the end of the header: the empty line and what follows are taken for one more line |
| HttpHeader.CutInnerLineEnd | cpp/src_app/server_proxy_access/client_connection_manager.cpp:561-592 | after any lines, a cut inside an inner CR LF makes one line of two, whose kind is that of the first |
| HttpHeader.CutForwardsCredentials | cpp/src_app/server_proxy_access/client_connection_manager.cpp:577-605 | credentials in the second of two lines that such a cut makes one are forwarded and not read |
| HttpHeader.RawForgetsCredentials | cpp/src_app/server_proxy_access/client_connection_manager.cpp:453-500 | for CONNECT the credentials count only if they are consumed in the call that brings the end of the header |
| HttpHeader.NormalRequest.OnHttpNormalChallenge | cpp/src_app/server_proxy_access/client_connection_manager.cpp:555-611 | the loop over the lines of a piece, with the partial line kept in a field, does what reading the piece on values does |
| HttpHeader.NormalRequest.ProcessHeaderLine | cpp/src_app/server_proxy_access/client_connection_manager.cpp:577-605 | one line is dropped, replaced, read as credentials, read as length or kept, by its name; which lines are of which kind is stated by HttpNames.NamedLine and HttpNames.OtherLine |
| IpLookup.Read128Row | cpp/src_lib_common/pp_common/ipdb/IP2Location.c:1196-1205 | the loop reverses the stored bytes, so that the address has the stored value |
| IpLookup.Ipv6Compare | cpp/src_lib_common/pp_common/ipdb/IP2Location.c:218-232 | comparing byte by byte is comparing the 128-bit values |
| IpLookup.RowIsUnique | cpp/src_lib_common/pp_common/ipdb/IP2Location.c:828-832 | at most one row holds a target |
| IpLookup.RowExists | cpp/src_lib_common/pp_common/ipdb/IP2Location.c:773-849 | between the first and the last entry every target has a row |
| IpLookup.NarrowKeepsRow | cpp/src_lib_common/pp_common/ipdb/IP2Location.c:813-845 | a turn that misses keeps the row within strictly narrower bounds, without wrapping, and reads no row after the last |
| IpLookup.ClimbToLast | cpp/src_lib_common/pp_common/ipdb/IP2Location.c:726-765 | for an address that is not before the last entry every turn of the IPv6 search goes up, without wrapping, until the last entry itself is probed |
| IpLookup.TurnKeepsSearching | cpp/src_lib_common/pp_common/ipdb/IP2Location.c:726-765 | a turn of the IPv6 search reads within the table, finds the row or narrows the bounds around it |
| IpLookup.WrapsExactly | cpp/src_lib_common/pp_common/ipdb/IP2Location.c:838-842 | the unsigned bound wraps exactly if the first row is probed for a target before it |
| IpLookup.GetIpv4Record | cpp/src_lib_common/pp_common/ipdb/IP2Location.c:773-849 | finds the row for every address, the highest one included, with or without an index |
| IpLookup.GetIpv6Record | cpp/src_lib_common/pp_common/ipdb/IP2Location.c:693-770 | finds the row of every address before the last entry; for any other the last entry is taken for a row that ends at whatever is stored behind it; a table of one entry gives nothing |
| DeviceIndex.UpdateKeepsInv | cpp/src_app/server_device_selector/device_context_manager.cpp:25-62 | an update of a known or a new device keeps map, timeout list and region lists in agreement |
| DeviceIndex.RemoveKeepsInv | cpp/src_app/server_device_selector/device_context_manager.cpp:68-81 | a removed device leaves map, timeout list and region lists, which keep agreeing |
| DeviceIndex.ExpireIsExact | cpp/src_app/server_device_selector/device_context_manager.cpp:16-23 | a tick removes exactly the devices that were silent for 180 s, and leaves the others as they are |
| DeviceIndex.SelectKeepsInv | cpp/src_app/server_device_selector/device_context_manager.cpp:89-123 | a selection only rotates one list |
| DeviceIndex.ListedOnceEverywhere | cpp/src_app/server_device_selector/device_context_manager.cpp:16-123 | in every run a device is in the map, the timeout list and its list of each kind, each once, and the timeout list is sorted by time |
| DeviceIndex.EachOnceInTurn | cpp/src_app/server_device_selector/device_context_manager.cpp:89-123 | as many selections as a list is long give each of its devices once and restore the order |
| DeviceTimes.LivesExactly | cpp/src_app/server_device_selector/device_context_manager.cpp:16-87 | in every run a device outlives a tick if and only if its last update came less than 180000 ms before it |
| DeviceTimes.SelectedCameFrom | cpp/src_app/server_device_selector/device_context_manager.cpp:52-123 | in every run a selection by country, state or city gives a known device that came with this country, state or city, and none only if there is no such device |
| DeviceTimes.EachFromThereOnce | cpp/src_app/server_device_selector/device_context_manager.cpp:52-123 | in every run as many selections as there are devices from somewhere give each of them once, no other, and restore the order |
| DeviceIndex.ReplacedOnSecondMismatch | cpp/src_app/server_device_selector/device_context_manager.cpp:33-41 | over any updates a binding is replaced exactly by the second mismatching one in a row |
| DeviceIndex.ListedUnderBoundExactly | cpp/src_app/server_device_selector/device_context_manager.cpp:33-62 | in every run a device is in the list of the region it is bound to if and only if that region has the same key as the one it came with |
| DeviceIndex.ReplacedStaysBehind | cpp/src_app/server_device_selector/device_context_manager.cpp:33-47 | three updates after which a device is bound to another region and is still in the lists of the one it came with |
| DeviceIndex.DeviceContextManager.UpdateDevice | cpp/src_app/server_device_selector/device_context_manager.cpp:25-62 | an update of a known device rebinds it and keeps it alive, a new one is linked into its three lists; the index stays consistent |
| DeviceIndex.DeviceContextManager.RemoveDeviceById | cpp/src_app/server_device_selector/device_context_manager.cpp:68-81 | a device is unlinked from map, timeout list and region lists; the index stays consistent |
| DeviceIndex.DeviceContextManager.Tick | cpp/src_app/server_device_selector/device_context_manager.cpp:16-23 | the loop over the timeout list; nothing that is left has expired |
| DeviceIndex.DeviceContextManager.SelectDevice | cpp/src_app/server_device_selector/device_context_manager.cpp:89-123 | the head of the list is given and moved to its tail; an empty or unknown list gives none |
| Backend.TickKeepsInv | cpp/src_app/lib_backend_connection/backend_connection.cpp:38-83 | after a tick no handshake is 5 s old, no ready link was silent for 65 s, and the invariant holds |
| Backend.StepKeepsInv | cpp/src_app/lib_backend_connection/backend_connection.cpp:6-163 | every event keeps the invariant: the TCP object is initialised exactly from connecting to closing; what a sign of life does is stated by BackendTimes.SilenceClosesExactly |
| Backend.RunKeepsInv | cpp/src_app/lib_backend_connection/backend_connection.cpp:6-163 | in every run initialisation and cleaning of the TCP object alternate |
| Backend.AttemptsKeepDistance | cpp/src_app/lib_backend_connection/backend_connection.cpp:71-80 | two attempts of one set-up are at least 3000 ms apart, however they ended |
| Backend.SetUpForgetsDistance | cpp/src_app/lib_backend_connection/backend_connection.cpp:6-19 | setting up again forgets the last attempt: for every time from 3 s on, a run with two attempts at that same time |
| Backend.DeliveredOnceTrusted | cpp/src_app/lib_backend_connection/backend_connection.cpp:138-163 | a packet reaches the owner only after the challenge was accepted on the same TCP connection |
| BackendTimes.SilenceClosesExactly | cpp/src_app/lib_backend_connection/backend_connection.cpp:38-136 | in every run a tick gives a ready link up, cleans its TCP object and tries again exactly if the last sign of life (a keep-alive packet or the acceptance) is at least 65000 ms old; otherwise it stays, and is asked for a sign of life exactly if the last question is at least 60000 ms old |
| BackendTimes.AttemptsExactly | cpp/src_app/lib_backend_connection/backend_connection.cpp:55-82 | in every run a tick gives a handshake up exactly 5000 ms after its attempt, cleans a closed link, and makes an attempt exactly if the last one is at least 3000 ms old |
| BackendTimes.AcceptedIsServed | cpp/src_app/lib_backend_connection/backend_connection.cpp:85-163 | an attempt succeeds: connected, challenge accepted, next packet delivered |
| BackendTimes.OthersAreRefused | cpp/src_app/lib_backend_connection/backend_connection.cpp:138-158 | before the link is ready any packet but a readable acceptance of the challenge is refused and changes nothing |
| BackendTimes.PeerCloseIsCleaned | cpp/src_app/lib_backend_connection/backend_connection.cpp:103-107 | in every run, after the peer closed, the next tick cleans the TCP object, once |
| Backend.BackendConnection.Tick | cpp/src_app/lib_backend_connection/backend_connection.cpp:38-83 | a tick leaves the connection consistent and young: it times out, retries or sends keep-alives, and cleans the TCP object only while it is initialised |
| Backend.BackendConnection.Reconnect | cpp/src_app/lib_backend_connection/backend_connection.cpp:66-82 | a connection that is due is closed and the next attempt is made, at least 3 s after the last |
| Backend.BackendConnection.OnPacket | cpp/src_app/lib_backend_connection/backend_connection.cpp:138-163 | a packet is delivered once the challenge is accepted; before that anything but a readable acceptance is refused |
| Backend.BackendConnection.OnKeepAlive | cpp/src_app/lib_backend_connection/backend_connection.cpp:121-123 | a sign of life is put down with the time it came |
| Backend.BackendConnection.OnConnected | cpp/src_app/lib_backend_connection/backend_connection.cpp:85-101 | a connected link waits for its challenge to be answered |
| Backend.BackendConnection.OnPeerClose | cpp/src_app/lib_backend_connection/backend_connection.cpp:103-107 | a closed link waits to be cleaned |
| Backend.BackendConnection.Init | cpp/src_app/lib_backend_connection/backend_connection.cpp:6-19 | a set-up starts from idle with all timestamps reset |
| Backend.BackendConnection.Clean | cpp/src_app/lib_backend_connection/backend_connection.cpp:21-26 | the TCP object is cleaned in exactly the phases in which it is initialised |
| ServerList.LowerBoundSplits | cpp/src_app/server_server_list/server_list_manager.cpp:45-46 | the place found divides the list |
| ServerList.AddIsExact | cpp/src_app/server_server_list/server_list_manager.cpp:40-61 | fails exactly for a full list and a known id; otherwise the new entry and nothing else is new and the list stays sorted |
| ServerList.AddsCommute | cpp/src_app/server_server_list/server_list_manager.cpp:40-61 | the order in which servers register does not matter |
| ServerList.RemoveIsExact | cpp/src_app/server_server_list/server_list_manager.cpp:63-72 | takes out the entry with the id and nothing else, and marks nothing as changed |
| ServerList.GetIsExact | cpp/src_app/server_server_list/server_list_manager.cpp:74-83 | finds exactly what is there |
| ServerList.NextVersionCounts | cpp/src_app/server_server_list/server_list_manager.cpp:11-13 | the version counts publications in 32 bits without 0 |
| ServerList.SameVersionExactly | cpp/src_app/server_server_list/server_list_manager.cpp:11-13 | equal versions mean the same publication unless a multiple of 2^32 - 1 publications lies between |
| ServerList.RunKeepsInv | cpp/src_app/server_server_list/server_list_manager.cpp:7-83 | in every run the live list is strictly sorted and has at most 125 entries, and each published list is the live list of its time |
| ServerList.SameMeansSame | cpp/src_app/server_server_list/_main.cpp:159-187 | a client that is told that its version is the same holds the list that is published |
| ServerList.UnansweredExactly | cpp/src_app/server_server_list/_main.cpp:159-187 | a client gets no answer if and only if it holds some version and nothing was ever published |
| ServerList.ZeroMeansUnpublished | cpp/src_app/server_server_list/_main.cpp:159-187 | version 0 never recurs after the first publication |
| ServerList.RemovalIsNotPublished | cpp/src_app/server_server_list/server_list_manager.cpp:63-72 | removing servers alone never leads to a publication |
| ServerListRuns.ChangedExactly | cpp/src_app/server_server_list/server_list_manager.cpp:7-61 | in every run the list is marked as changed if and only if some addition is not published; the last such addition is at most a minute old, earlier ones may be of any age |
| ServerListRuns.PublishesExactly | cpp/src_app/server_server_list/server_list_manager.cpp:7-61 | an event publishes if and only if it is a tick that finds an unpublished addition and comes more than a minute after the last addition; it publishes the live list |
| ServerListRuns.RunPublishesExactly | cpp/src_app/server_server_list/server_list_manager.cpp:7-61 | a run publishes something if and only if some tick comes more than a minute after the last addition before it |
| ServerListRuns.MayStarve | cpp/src_app/server_server_list/server_list_manager.cpp:7-72 | for every number of minutes, a run in which a server has been registered that long and nothing was ever published, because another server came once a minute |
| ServerList.ListReadsBack | cpp/src_lib_protocol/pp_protocol/internal/download_server_list.hpp:17-42 | a list can be read back if and only if it has fewer than 125 entries |
| ServerList.InternalServerListManager.OnTick | cpp/src_app/server_server_list/server_list_manager.cpp:7-18 | a tick publishes the live list under the next version exactly if it is marked as changed and more than a minute has passed since the last publication or addition |
| ServerList.InternalServerListManager.AddServerInfo | cpp/src_app/server_server_list/server_list_manager.cpp:40-61 | an entry is inserted at its place exactly if there is room and its id is new; then the list is marked as changed and the minute starts again |
| ServerList.InternalServerListManager.RemoveServerInfo | cpp/src_app/server_server_list/server_list_manager.cpp:63-72 | the entry with the id is erased from the live list, which is not marked as changed |
| Crypto.DecryptedEncrypted | cpp/src_lib_protocol/pp_protocol/crypto.cpp:6-62 | for any invertible block function decrypting what was encrypted gives back every byte string |
| Crypto.LeastMultipleAbove | cpp/src_lib_protocol/pp_protocol/crypto.cpp:9-10 | the encrypted length is the least multiple of 16 above the length of the data |
| Crypto.EcbUndone | cpp/src_lib_protocol/pp_protocol/crypto.cpp:26-30 | block by block decryption undoes block by block encryption |
| Crypto.PaddingIsItsLength | cpp/src_lib_protocol/pp_protocol/crypto.cpp:9-20 | behind the data come 1 to 16 bytes, each of which is their number (section 6.3 of RFC 5652) |
| Crypto.BlockForItself | cpp/src_lib_protocol/pp_protocol/crypto.cpp:26-30 | each block of the result is the encryption of the block of the padded data in the same place |
| Crypto.FillBuffer | cpp/src_lib_protocol/pp_protocol/crypto.cpp:11-20 | the padded data in the upper half of the buffer (section 6.3 of RFC 5652) |
| Crypto.Encrypt | cpp/src_lib_protocol/pp_protocol/crypto.cpp:6-34 | the moving pointers never write over data that is still to be read |
| Crypto.Decrypt | cpp/src_lib_protocol/pp_protocol/crypto.cpp:36-62 | data that is not made of blocks and a padding longer than the data give nothing |

## Left out

- Sockets, the IO context, Kafka, MySQL, logging, configuration and command lines: plumbing over libraries.
- `cache_manager.cpp`, `auth_cache_info.cpp`: unfinished, without behaviour to rely on.
- `server_proxy_access/relay_connection_manager.cpp`: its pool never holds its connections, so the network is modelled with one relay that is found by id.
- `extra/*_server_list_client.cpp`: the clients of the server list append to what they hold; `SameMeansSame` is about a client that keeps the list it was given.
- `device_connection_manager.cpp`, `proxy_connection_manager.cpp`, `request_id_pool.hpp`, `py_format.cpp`: smaller instances of what `AuthCache` and `Csv` show.
- Message layouts: messages are records; only the server list is modelled on the wire.
- The kill, linger and idle lists of client connections: a connection may vanish at any step, which covers every order in which they are worked off.
- Replies posted to HTTP clients and to refused SOCKS5 requests, and audit counters.
- Several access servers on one relay: contexts remember one; the links of another do not touch its contexts.
- RelayServices.DeviceRelayService: devices and contexts are reached by id, where the source keeps pointers from devices to connections; dangling pointers are not modelled.
- RelayTheorems.UnionReadSafely: `OnProxyDestroyConnection`, which also reads the union, is no event of the network, because the access server never sends its message; what it would read is stated by `DestroyReadsSafely` and `DestroyReadsExactly`.
- RelayNetwork.OnDeviceSelected: the selector is free to choose any device, whatever region was requested.
- Csv.ParseCsv: UTF-16, trimming and numeric conversion are not modelled.
- ServerPool.ServiceClientHashPool.OnPeerClose: a context whose close is already queued is not reported again before the tick, because its connection object is gone by then.
- Socks5.OnConnectionRequest: the reply to a request for another operation is not modelled, only that the connection is closed.
- IpLookup.GetIpv4Record: rows are given by their first columns; shared memory, file mode and the other columns are not modelled.
- HttpHeader.Feed: what the code reads beyond the end of a line is an outcome of its own, `Undefined`, after which nothing is said.
- Crypto.Encrypt: the cipher is any invertible function on 16-byte blocks; AES and its key schedule are not modelled.
- Framing.OnData: header layout and dispatch are parameters; keep-alive packets are one kind of packet that the dispatch handles.
