# A model of the dcos-diagnostics collectors

dcos-diagnostics gathers diagnostics from every node of a cluster: it makes bundles of log files, on one
node and over the whole cluster, and it pulls the health of every node into a status that can be queried by
unit and by node. This project models its concurrent protocols and the archives and indexes they produce,
and proves what holds in every interleaving. `dafny verify dfyconfig.toml` checks it.

| part | modules |
|---|---|
| Cluster bundles: coordinator, collector, merge | `Coordinator`, `CoordinatorProgress`, `CoordinatorCompletion`, `NodeHistory`, `Collection`, `ClusterBundle`, `Paths`, `Merge`, `MergeProperties`, `SharedDirectory`, `ClusterArchive` |
| The deprecated bundle job and its fetchers | `FetcherPool`, `FetcherPoolProgress`, `LegacyBundle`, `MasterJobs` |
| Health pulls, the status index, refresh requests | `PullRound`, `PullTiming`, `Health`, `HealthIndex`, `Refresh` |
| Local bundles | `BundleLifecycle`, `LocalCollection` |
| Shared | `Common`, `Sums` |

A protocol is a transition system: a state, the events `Enabled` in it and the state `Next` after each. An
event that ends a foreign call (HTTP, disk, zip) carries its outcome, so a statement about all event
sequences is about all interleavings and all outcomes. Conservation is stated with `Sum(s, f)`, the total
weight of a sequence; since the weight is arbitrary, equal sums for all weights mean equal multisets. Loops
and objects that change state are methods and classes, each proved against a function whose properties the
lemmas state.

Assumed of the surroundings: node addresses parse, are distinct and, like role names, contain no slash, and
an address contains no underscore (`ClusterBundle.Named`); client calls return; paths use the Unix separator;
the clock is monotone; the pull interval is positive.

## What turned out false, and when it holds

- The error text of a node survives the merge if and only if its archive has no non-empty summary before its
  last one (`TextPreserved`, `AllTextsPreserved`); `EarlierTextLost` is an archive that loses text.
- A cluster request need not merge what it downloaded: the daemon gives all requests one work directory
  (cmd/daemon.go:112) and the name of a node's file has no bundle id. In any interleaving of downloads by any
  requests, a node's file is what the last download from its address and role left (`LastDownloadKept`), so a
  download is still there when the merge reads it if and only if that last one left the same file
  (`DownloadSurvivesWhen`, `DownloadReplaced`). The archive holds that last download (`ArchiveOfNode`); a request
  that has the directory to itself merges its own (`ArchiveOfNodeAlone`).
- A successful merge need not leave an archive: the errors of the two deferred closes are dropped. Success does
  not depend on them, and after a success the file is the assembled archive if and only if both went well
  (`MergeZips`); `CloseErrorDropped` is a merge that succeeds and leaves none.
- A cancelled job of the deprecated API can hang: a fetcher that has committed to its status update loses its
  receiver (`CancelledJobCanHang`). This is decided when the waiter leaves: the job completes if and only if no
  fetcher is offering an update at that moment (`CompletesWhen`).
- A file of the deprecated bundle is in its node's directory if and only if its name does not leave that directory
  for good (`EntryBelowNode`); a file named `../x` is written beside it (`EntryOutsideNode`).
- A bundle need not come to an end: a create whose context ends first leaves Started behind, and nothing makes it
  Done (`StartedForGood`). Once the directory is there, Done can still be stored if and only if some create has
  neither ended, nor failed to create its data file, nor run out of its time (`DoneWhen`).
- A stored Deleted is final if and only if no create can still write the state file and no delete that can still
  get past the removal of the data file is under way (`DeletedFinal`); a collection that
  ends after a delete stores Done over it (`DeletedThenDone`).
- A bundle is stored as Done, and its file is served, even if the zip could not be closed (`UnfinishedZipServed`);
  the served file is a finished zip if and only if no close failure was recorded (`ServedZip`).
- An id can be created twice when two requests check before either makes the directory (`RacingCreates`);
  serialised creates exclude that (`SerialCreates`). Once the directory is there, it can be set up again if and
  only if some create has passed its check and not gone on (`SetUpAgainWhen`).
- Two masters can run a job at once when their checks overlap (`ChecksOverlap` with `OverlapBreaks`, against
  `AtMostOneRunning`). From any state, two can come to run without a further check if and only if two are
  running or past their check (`TwoRunWhen`).
- A master whose flag says that no job is running may still be at work: of two overlapping requests on one master
  the first job to end clears the flag (`SameMasterOverlap`). From truthful flags that can happen without a further
  check if and only if some master has two requests or jobs past their check (`HiddenWhen`).
- A request for fresh health data that times out stops the puller for good. Another pull can begin if and only if
  no request has timed out (`PullerStuckWhen`).
- The health of a host need not be the worst of its units (`HostHealthNotWorst`). It is the worst if and only if
  no unit is worse than the first one that is worse than the host's starting health (`HostHealthWorst`); and it
  is healthy exactly when all units are (`HostHealth`).
- An archive entry named `../<node directory>/x` is accepted: it climbs out and comes straight back. It and
  the names that never climb are all that is accepted (`SanitizeExact`).

## Model

| member | source | states |
|---|---|---|
| `Coordinator.StepConserves` | api/rest/coordinator.go:83-120 | no event of feeder, workers, timers, collector or cancellation creates, loses or duplicates a node's token, for any selection of nodes |
| `Coordinator.TokenOwnership` | api/rest/coordinator.go:102-120 | in every reachable state each node owns exactly one live token: unfed, queued, executing, on a timer, or a done status in flight or received |
| `CoordinatorProgress.NoSendBlocks` | api/rest/coordinator.go:309-333 | in every reachable state the job channel has room for all pending senders together, so no send on it blocks, from the feeder, a worker or a timer |
| `CoordinatorProgress.NoDeadlock` | api/rest/coordinator.go:83-98 | while the collector waits for a node, some event other than the cancellation can happen, in spite of bounded statuses and ten workers |
| `CoordinatorProgress.JobsInOrder` | api/rest/coordinator.go:83-98 | no job is overtaken in the queue: each take brings every queued job one place nearer |
| `CoordinatorProgress.StatusesInOrder` | api/rest/coordinator.go:136-138 | the collector receives the statuses in the order of the channel, and keeps them |
| `CoordinatorProgress.RunsOrderly` | api/rest/coordinator.go:83-120 | a worker flushes only once the context has ended, a status is received only after all nodes were queued, and none after the last done one |
| `CoordinatorProgress.FedInOrder` | api/rest/coordinator.go:111-117 | in every run the next create job to be queued is that of the first node without one |
| `CoordinatorProgress.StepWorks` | api/rest/coordinator.go:317-327 | after cancellation every event lowers the remaining work |
| `CoordinatorProgress.CancelledRunCompletes` | api/rest/coordinator.go:83-98 | after cancellation at most 11 N + 30 events can happen, whatever the calls answer, and the run can stop only with all N nodes counted |
| `CoordinatorProgress.DoneExactlyOnce` | api/rest/coordinator.go:136-165 | each node is received done at most once, so the write index stays in range; when the collector stops, exactly once |
| `CoordinatorCompletion.StepCosts` | api/rest/coordinator.go:296-359 | every event lowers the remaining effort, except that a status reply that is not final raises it by five |
| `CoordinatorCompletion.RunCompletes` | api/rest/coordinator.go:83-165 | every run, cancelled or not, has at most 11 N + 11 + 6 U events for U status replies that are not final, and can stop only with all N nodes counted |
| `NodeHistory.StatusDecides` | api/rest/coordinator.go:335-358 | a status reply ends its node exactly when it is Done, Deleted, Canceled or Failed; after any other one, or an error, the node is put on a timer |
| `NodeHistory.CreateLeadsToCheck` | api/rest/coordinator.go:296-315 | a successful create call queues the node's check before it reports the node undone and without an error |
| `NodeHistory.StepEnds` | api/rest/coordinator.go:296-359 | an event adds a done status exactly when it ends a node: a failed create, a check that finds the context finished, or one of the four final statuses, by name |
| `NodeHistory.EndingsConserved` | api/rest/coordinator.go:83-98 | in every run the done statuses held, queued and received are, with their causes, exactly the ends that occurred |
| `NodeHistory.EndsOnce` | api/rest/coordinator.go:296-359 | exactly one end occurs for each node of a finished run |
| `NodeHistory.WhyReported` | api/rest/coordinator.go:136-165 | the report of each node follows from its one end and its download: Done exactly after a finished remote status and a successful download, otherwise Failed with the cause |
| `NodeHistory.ReportExplained` | api/rest/coordinator.go:136-165 | in any finished run some event at the node's own call explains its report: Done only after a reply Done, Deleted, Canceled or Failed and a download without error, otherwise Failed with the error of that event |
| `NodeHistory.CreatedOnce` | api/rest/coordinator.go:111-117 | a bundle is asked for at most once on each node, and exactly once in a finished run |
| `NodeHistory.CreatedBeforeChecked` | api/rest/coordinator.go:296-337 | a node is asked for its status only after its create call succeeded |
| `Collection.CollectBundle` | api/rest/coordinator.go:124-165 | the receive loop stops at the last done status it needs, writes the cleanup array in range, and yields the outcome of the arrivals it took |
| `Collection.UndoneTail` | api/rest/coordinator.go:136-143 | arrivals after the last done status change nothing |
| `Collection.OutcomeLists` | api/rest/coordinator.go:134-165 | the cleanup list, the merge list and the nodes asked for a file are those of the done, the downloaded and the error-free arrivals, in order of arrival |
| `Collection.ReportAt` | api/rest/coordinator.go:148-163 | the last done arrival of an address decides its report entry |
| `ClusterBundle.ReceivedKnown` | api/rest/coordinator.go:111-117 | every received done status is of a requested node and carries the request's id |
| `ClusterBundle.PathsApart` | api/rest/coordinator.go:361-363 | different nodes are downloaded to different files |
| `ClusterBundle.DownloadPath` | api/rest/coordinator.go:154-154 | in an absolute work directory of plain components the file of a node is the directory, a slash, address, underscore, role and .zip |
| `ClusterBundle.SharedPath` | api/rest/coordinator.go:154-154 | two requests with one work directory use the same file if and only if address and role agree, whatever their ids |
| `ClusterBundle.NodeOutcome` | api/rest/coordinator.go:145-164 | in any finished run each node has a report entry, Done if and only if its file is in the merge list, otherwise Failed, and it was asked for a file if and only if its done status had no error |
| `ClusterBundle.RunOutcome` | api/rest/coordinator.go:129-177 | one report entry per node and no other, no path merged twice, and a cleanup list that is a permutation of all nodes' bundles |
| `Paths.SanitizeExact` | api/rest/coordinator.go:288-294 | which names are accepted, exactly; a result is the destination followed by a non-empty path of plain components |
| `Paths.SanitizedNamesApart` | api/rest/coordinator.go:263-294 | entries of different destinations never share a name, nor with a top-level file |
| `Paths.CleanKeepsTarget` | api/rest/coordinator.go:289-290 | cleaning a path does not change where it leads, followed component by component from any directory |
| `Paths.CleanTwice` | api/rest/coordinator.go:289-290 | a cleaned path is clean |
| `Paths.JoinClean` | api/rest/coordinator.go:289-289 | a join is clean, is empty only for two empty paths, and with an empty first path leads where the second leads |
| `Paths.JoinLeads` | api/rest/coordinator.go:289-289 | a joined path leads where the second path leads from the first |
| `Paths.AcceptedTarget` | api/rest/coordinator.go:288-294 | an accepted name leads where it leads from the destination, and to a place below it |
| `Paths.OrdinaryName` | api/rest/coordinator.go:288-294 | a name of plain components goes below the destination as it is |
| `Paths.BaseJoin` | api/rest/coordinator.go:154-155 | a plain file name joined to any directory is its base name again |
| `Merge.AddFileToZip` | api/rest/coordinator.go:263-285 | one file is added under its destination with its bytes, or nothing is; which error, and when |
| `Merge.AppendToZip` | api/rest/coordinator.go:230-261 | succeeds exactly when the archive opens, reads and fits; then adds exactly its files and returns its error text |
| `Merge.AddSummary` | api/rest/coordinator.go:216-225 | the summary is written exactly when there is error text |
| `Merge.AppendAll` | api/rest/coordinator.go:203-214 | succeeds exactly when all archives can be merged and fit; then all their files are added and their error texts joined |
| `Merge.MergeZips` | api/rest/coordinator.go:182-228 | succeeds exactly when the output can be created, all inputs can be merged and all fits, whatever the deferred closes do; the output is then the report, all files and the joined error text if any, exactly when both closes go well |
| `Merge.CloseErrorDropped` | api/rest/coordinator.go:189-192 | a merge that succeeds and leaves no readable archive |
| `MergeProperties.ExtractedWhen` | api/rest/coordinator.go:240-258 | an archive is accepted if and only if each file reads and each kept file has a destination |
| `MergeProperties.GatheredWhen` | api/rest/coordinator.go:205-214 | the merge accepts its inputs if and only if each of them is acceptable |
| `MergeProperties.FilesPreserved` | api/rest/coordinator.go:240-258 | the files of one archive, except summaries, are kept one for one, in order, with their bytes |
| `MergeProperties.AllFilesPreserved` | api/rest/coordinator.go:205-214 | the same for all archives together: nothing lost, duplicated or reordered, no byte changed |
| `MergeProperties.TextPreserved` | api/rest/coordinator.go:241-254 | the error text of an archive survives if and only if no summary before its last has text |
| `MergeProperties.AllTextsPreserved` | api/rest/coordinator.go:203-225 | the cluster summary is the concatenation of all error texts if and only if that holds of every archive; otherwise it is shorter |
| `MergeProperties.EarlierTextLost` | api/rest/coordinator.go:241-254 | an archive with two summaries whose first text is lost |
| `MergeProperties.NodesSeparable` | api/rest/coordinator.go:182-228 | selecting one directory of the output gives back that archive's files, complete and in order |
| `MergeProperties.ClusterSeparates` | api/rest/coordinator.go:263-294 | the source's naming keeps the directories, the report and the summary apart |
| `MergeProperties.DestinationMeans` | api/rest/coordinator.go:270-275 | an entry is copied exactly for the accepted names, to the cleaned path that leads from the node's directory as the name does |
| `MergeProperties.OrdinaryDestination` | api/rest/coordinator.go:270-275 | an ordinary file keeps its name below the directory of its node |
| `MergeProperties.ArchiveLayout` | api/rest/coordinator.go:194-225 | report.json is the first entry and the only one of that name; summaryErrorsReport.txt is the last, the only one of that name, and there exactly when there is text; all between are the gathered files |
| `ClusterArchive.DirectoryOf` | api/rest/coordinator.go:238-238 | the prefix of a node's files is its address and role |
| `SharedDirectory.LastDownloadKept` | api/rest/coordinator.go:154-155 | in any interleaving of downloads by any requests, the path of a node holds what the last download from its address and role left |
| `SharedDirectory.DownloadSurvivesWhen` | api/rest/coordinator.go:361-363 | a download is still there in the end if and only if the last one from that address and role left the same file |
| `SharedDirectory.DownloadReplaced` | api/rest/coordinator.go:361-363 | of two requests that download the same node, the first does not find its own file |
| `SharedDirectory.DownloadKept` | api/rest/coordinator.go:154-155 | a request that has the directory to itself finds its own download of each node |
| `ClusterArchive.ArchiveOfNode` | api/rest/coordinator.go:124-228 | from any run, with any other requests in the directory, to the archive: a node reported Done has below its directory exactly the files of the last download from it, except summaries, in order and with their bytes; a Failed one has none |
| `ClusterArchive.ArchiveOfNodeAlone` | api/rest/coordinator.go:124-228 | a request that has the directory to itself merges its own downloads |
| `ClusterArchive.LayoutOfRun` | api/rest/coordinator.go:182-228 | the same layout by name for the archive of any finished run |
| `FetcherPool.StepHolds` | fetcher/fetcher.go:93-114 | every request is in the queue, with one fetcher or in one zip, in every run |
| `FetcherPool.StepOwes` | fetcher/fetcher.go:102-111 | while the context is open no event loses or repeats a status update |
| `FetcherPool.QueueInOrder` | api/diagnostics.go:305-309 | requests are taken in the order of the queue and none is put back |
| `FetcherPoolProgress.RunsEnd` | api/diagnostics.go:305-325 | every run with R requests and W fetchers has at most 3 R + 2 W + 2 events |
| `FetcherPoolProgress.NoDeadlock` | api/diagnostics.go:342-372 | an uncancelled job that is not complete can go on, given a fetcher or nothing to fetch |
| `FetcherPoolProgress.NoFetchersWaitForCancel` | api/diagnostics.go:314-372 | without fetchers, which the daemon refuses to configure, the runs of a job with requests are the prefixes of cancel, leave, and only the whole of it is complete |
| `FetcherPoolProgress.SendingStays` | fetcher/fetcher.go:107-110 | once the waiter has left, a fetcher that offers an update does so for ever |
| `FetcherPoolProgress.CompletesWhen` | api/diagnostics.go:358-362 | a run that has come to its end is complete if and only if no fetcher was offering a status update when the waiter left |
| `FetcherPoolProgress.CancelledJobCanHang` | api/diagnostics.go:359-361 | with one request and one fetcher a state is reachable that is not complete and in which nothing can happen |
| `FetcherPoolProgress.BundleNoMore` | api/diagnostics.go:243-250 | cancelled or not, the bundle never holds more than what was requested |
| `FetcherPoolProgress.CompleteCounts` | api/diagnostics.go:305-325 | a complete uncancelled job has fetched each request once and received one update for each |
| `LegacyBundle.FetchAccounted` | fetcher/fetcher.go:116-146 | a copied answer leaves one entry with its bytes and the copy's error; a refused or uncreated one leaves its error and no entry; a refused optional one leaves nothing |
| `LegacyBundle.EntryName` | fetcher/fetcher.go:132-141 | the entry of an ordinary file is address, underscore, role, a slash and the file name, with .gz exactly for a compressed answer, and holds its bytes |
| `LegacyBundle.EntryBelowNode` | fetcher/fetcher.go:132-137 | the entry is in its node's directory if and only if the file name does not leave that directory for good |
| `LegacyBundle.EntryOutsideNode` | fetcher/fetcher.go:136-137 | a file named `../x` is written beside that directory |
| `LegacyBundle.ZipFetcher.WorkOffRequests` | fetcher/fetcher.go:93-114 | a fetcher's zip is the sequential archive of the requests it took, with one update for each |
| `LegacyBundle.ShuffleRequests` | api/diagnostics.go:404-409 | the in-place shuffle yields the order given by the picks, a permutation of the requests |
| `LegacyBundle.ShuffleReaches` | api/diagnostics.go:404-409 | the orders that the shuffle can produce are exactly the permutations of the requests |
| `LegacyBundle.ParallelEqualsSequential` | api/diagnostics.go:243-325 | for any number of fetchers, shuffle and schedule, the bundle's entries are as a multiset those of a sequential fetch, and the updates are one per request |
| `LegacyBundle.BundleBytes` | api/diagnostics.go:243-372 | for any schedule the bytes in the bundle are as a multiset those copied from the answers to the original requests, and so are the errors of the updates, each with its address |
| `LegacyBundle.BundleWithin` | api/diagnostics.go:243-250 | in any run, cancelled or not, the bundle's requests and its entries are sub-multisets of those of a sequential fetch |
| `LegacyBundle.OneResultEach` | api/diagnostics.go:342-353 | a complete job has received exactly one result from each fetcher |
| `MasterJobs.DiagnosticsJob.GetStatusAll` | api/diagnostics.go:553-603 | succeeds if and only if masters are listed and all others answer; then every listed master has its own status |
| `MasterJobs.DiagnosticsJob.RunJob` | api/diagnostics.go:134-199 | a job starts exactly when nobody runs one and everybody could be asked |
| `MasterJobs.Refused` | api/diagnostics.go:530-603 | a start is refused exactly for a job of the master's own, masters that cannot be listed, an empty list, or another listed master that does not answer or runs a job |
| `MasterJobs.StopFrees` | api/diagnostics.go:728-734 | while a job runs no master can pass its check; once it has stopped every master can |
| `MasterJobs.GiveUpFrees` | api/diagnostics.go:153-168 | a request that fails between its check and its start leaves nothing behind |
| `MasterJobs.CheckMeansNone` | api/diagnostics.go:530-549 | a passed check means that no master at all was running |
| `MasterJobs.CheckPossible` | api/diagnostics.go:530-603 | with all masters listed, a master can pass its check if and only if no master runs a job |
| `MasterJobs.AtMostOneRunning` | api/diagnostics.go:145-183 | when checks and starts do not overlap, at most one job is at work in the cluster in every reachable state, and the flags say where |
| `MasterJobs.OverlapBreaks` | api/diagnostics.go:145-183 | two masters that have both passed their check can both end up running |
| `MasterJobs.TwoRunWhen` | api/diagnostics.go:145-183 | from any state two masters can come to run without a further check if and only if two are running or past their check |
| `MasterJobs.HiddenWhen` | api/diagnostics.go:183-187 | from truthful flags a job can come to be at work behind a cleared flag, without a further check, if and only if some master has two requests or jobs past their check |
| `MasterJobs.SameMasterOverlap` | api/diagnostics.go:728-734 | a run with two overlapping requests on one master after which its flag is cleared, a job is at work, and another master can pass its check |
| `MasterJobs.ChecksOverlap` | api/diagnostics.go:530-549 | two masters can both pass their check |
| `PullRound.NothingBlocks` | api/pull.go:129-141 | free and held tokens add up to n in every reachable state, so at most n pulls are in flight, and neither a response nor a token return blocks |
| `PullRound.NoDeadlock` | api/pull.go:80-86 | until the round is over some goroutine can go on |
| `PullRound.RoundResult` | api/pull.go:71-86 | a round takes four events per host and ends with exactly one response of each host and all tokens back |
| `PullRound.LimitFits` | api/pull.go:73-78 | the limiter size n is the smallest with N timeout < n interval |
| `PullTiming.StepKeeps` | api/pull.go:129-141 | all tokens are in use at any time before a start and as long as a host waits, each by a pull of its own host |
| `PullTiming.StartBound` | api/pull.go:134-163 | after k pulls the next one starts no later than k/n timeouts into the round |
| `PullTiming.RoundOnTime` | api/pull.go:73-86 | in every timed run each pull starts within one interval, no host waits longer than that, and the round is over before interval + timeout |
| `Health.PullHostStatus` | api/pull.go:129-215 | every path delivers one response; of a reachable host its units all point to the finished host with all its texts |
| `Health.UnreachableHost` | api/pull.go:136-181 | for an unknown port, an unusable URL, a status other than 200, an error or an undecodable body the host is reported with health 3, no units, and otherwise unchanged |
| `Health.ReachableHost` | api/pull.go:182-213 | an answer is taken over field by field: hostname and Mesos id of the host, id, health, title, pretty name and time of each unit |
| `Health.LastOutput` | api/pull.go:200-202 | a unit id has the text of the last unit with that id |
| `Health.HostHealth` | api/pull.go:192-198 | a reachable host that starts healthy is reported healthy if and only if all its units are |
| `Health.HostHealthWorst` | api/pull.go:192-198 | a reachable host is reported with the worst of its own and its units' health if and only if no unit is worse than the first that is worse than its own |
| `Health.HostHealthNotWorst` | api/pull.go:192-198 | a healthy host that answers with units at 1 and then 3 is reported at 1 |
| `Health.OwnOutput` | api/pull.go:200-202 | with distinct unit ids each unit keeps its own text in the shared map |
| `Health.UpdateHealthStatus` | api/pull.go:93-127 | the two published maps are the folds of the buffered responses |
| `HealthIndex.FoldMeans` | api/pull.go:106-117 | a unit is present if and only if reported; its health is the maximum, its hosts are all reported ones, in order, and title, time and pretty name are those of its first report |
| `HealthIndex.OrderIndependent` | api/pull.go:93-127 | responses in another order give the same units, the same health and the same multiset of hosts |
| `HealthIndex.NodesOrderIndependent` | api/pull.go:101-104 | with distinct addresses the node map does not depend on the order |
| `HealthIndex.MonitoringResponse.PublishPull` | api/pull.go:93-127 | whatever was published before, both maps then come from the new pull and from nothing else |
| `HealthIndex.LookupsAgree` | api/monitoring_response.go:30-36 | as both maps are replaced together, the two single lookups always find a pair together and with the same text |
| `HealthIndex.MonitoringResponse.GetNodesForUnit` | api/monitoring_response.go:77-96 | not found if and only if the unit is unknown; otherwise one row per host of the unit |
| `HealthIndex.MonitoringResponse.GetNodeUnitsID` | api/monitoring_response.go:180-200 | not found if and only if the node is unknown; otherwise one row per unit of the node |
| `HealthIndex.MonitoringResponse.GetSpecificNodeForUnit` | api/monitoring_response.go:99-119 | the first host with the address and its text for the unit |
| `HealthIndex.MonitoringResponse.GetNodeUnitByNodeIDUnitID` | api/monitoring_response.go:203-223 | the first unit with the id and the node's text for it |
| `HealthIndex.PulledOwnUnits` | api/pull.go:200-213 | every unit of a response names exactly the responding host |
| `HealthIndex.ListedHosts` | api/pull.go:106-117 | the hosts of a unit are exactly the responding hosts that have it |
| `HealthIndex.ViewsAgree` | api/monitoring_response.go:99-223 | an address is found for a unit if and only if the unit is found for the address, and both lookups read the same host |
| `HealthIndex.PulledTextFound` | api/pull.go:129-215 | for any order of arrival, looking up a pulled unit from either side finds the host with the name and Mesos id it sent, and the unit with the health, title, pretty name and text it sent |
| `HealthIndex.UnreachableShown` | api/pull.go:93-141 | in whatever order the responses arrive, a host that could not be pulled is published with health 3 and no units |
| `BundleLifecycle.Report` | api/rest/bundle_handler.go:296-324 | Started, InProgress or Done is reported only as read and with the data file present when it is looked for; an error is reported exactly for an unreadable state or a missing data file, as Unknown |
| `BundleLifecycle.FinalReported` | api/rest/bundle_handler.go:312-314 | in every run a bundle stored as Deleted, Canceled or Failed is reported so, with or without a data file |
| `BundleLifecycle.StateWrites` | api/rest/bundle_handler.go:102-161 | each write stores its own status, a refused write leaves the state file alone, and no other event touches it |
| `BundleLifecycle.GivesUp` | api/rest/bundle_handler.go:111-142 | a create that cannot make its directory or write its state ends there, leaves the data file alone and is never at work again |
| `BundleLifecycle.FailedCreateReported` | api/rest/bundle_handler.go:130-142 | a create that cannot open its data file is reported Failed |
| `BundleLifecycle.DeleteBeginsWhen` | api/rest/bundle_handler.go:338-360 | a delete sets to work exactly on a bundle with a readable state that is not Deleted or Canceled already |
| `BundleLifecycle.DeleteReported` | api/rest/bundle_handler.go:338-378 | a delete that nothing disturbs removes the data file, keeps the recorded problems, and is reported Deleted |
| `BundleLifecycle.DoneAfterClose` | api/rest/bundle_handler.go:148-203 | in every run a stored Done means that a collection had come to its closing step, and the close failure recorded with it is that of the step |
| `BundleLifecycle.SerialCreates` | api/rest/bundle_handler.go:102-161 | with serialised creates an id is set up at most once; a file is served only if present when looked for, with no creator at work on it, whatever happens after the state was read |
| `BundleLifecycle.ServedZip` | api/rest/bundle_handler.go:154-203 | with serialised creates a served file is a finished zip if and only if no close failure was recorded with Done |
| `BundleLifecycle.UnfinishedZipServed` | api/rest/bundle_handler.go:195-202 | a run that stores Done and serves a zip whose close failed |
| `BundleLifecycle.RacingCreates` | api/rest/bundle_handler.go:106-112 | two overlapping creates set an id up twice |
| `BundleLifecycle.SetUpAgainWhen` | api/rest/bundle_handler.go:106-112 | once the directory is there, an id can be set up again if and only if some create has passed its check and not gone on |
| `BundleLifecycle.DoneWhen` | api/rest/bundle_handler.go:130-161 | once the directory is there, Done can still be stored if and only if some create has neither ended, nor failed, nor run out of its time |
| `BundleLifecycle.StartedForGood` | api/rest/bundle_handler.go:150-153 | a create whose context ends first leaves Started behind, and nothing makes it Done |
| `BundleLifecycle.LateZip` | api/rest/bundle_handler.go:148-161 | the collectors go on after the context has ended: the zip can still be finished behind a bundle that stays Started |
| `BundleLifecycle.OnlyRefusals` | api/rest/bundle_handler.go:338-368 | with Deleted stored and no writer pending, only deletes that find no data file can still happen, and collections past their time can close their zip |
| `BundleLifecycle.DeletedFinal` | api/rest/bundle_handler.go:338-378 | a stored Deleted is final if and only if no writer is pending |
| `BundleLifecycle.DeletedThenDone` | api/rest/bundle_handler.go:150-161 | a collection that ends after a delete stores Done, and the bundle is then reported Unknown |
| `LocalCollection.Collect` | api/rest/bundle_handler.go:205-224 | the entry and the error of one collector, for every failure |
| `LocalCollection.RunCollectors` | api/rest/bundle_handler.go:171-182 | entries and errors of the collectors reached before the context ends, in order |
| `LocalCollection.CollectAll` | api/rest/bundle_handler.go:166-203 | the zip and the errors of a whole collection, with its summary and closing failures |
| `LocalCollection.Accounted` | api/rest/bundle_handler.go:166-224 | without zip failures the entries are, in order, the collectors that opened, with their data, and the optional ones that failed, with their error text; the errors are the required ones that failed; none is lost |
| `LocalCollection.FaultyOne` | api/rest/bundle_handler.go:215-221 | an entry that cannot be created or is cut off is an error unless the collector is optional; what was copied is a prefix of its content |
| `LocalCollection.SummaryFails` | api/rest/bundle_handler.go:184-193 | a summary that cannot be created or is cut off is the first of the late errors; without errors none is tried |
| `LocalCollection.CutShort` | api/rest/bundle_handler.go:171-193 | when the context ends, later collectors leave nothing, the end is the last error of the loop, and the summary is written |
| `LocalCollection.CleanRun` | api/rest/bundle_handler.go:184-193 | the summary is there if and only if a required collector failed |
| `LocalCollection.CloseRecorded` | api/rest/bundle_handler.go:195-202 | the errors sent tell of a close failure if and only if the zip or the data file could not be closed |
| `Refresh.RefreshIsFresh` | api/router.go:85-97 | at most one request waits for the done signal, and it goes on only after a pull that began after its own signal was accepted |
| `Refresh.WedgedForever` | api/pull.go:35-49 | once a served request is gone no pull begins any more |
| `Refresh.PullerStuckWhen` | api/router.go:85-92 | after any run another pull can begin if and only if no request has timed out |

## Left out

- HTTP clients, JSON, URL building, TLS, journald, the service managers and command execution: outcomes of such calls are event parameters or inputs.
- The wording of error messages: causes are structured values, and the text joined from them is a parameter.
- `GetUnit`, `GetAllUnits`, `GetNodes`, `GetNodeByID` and `GetMasterAgentNodes` of the status index, and the response codes of the bundle handlers: they would only add easy members.
- Metrics, logging, the route table, middleware other than the refresh handshake, command-line and configuration code.
- The cluster handler's request parsing, node filtering, listing, proxying, download and copying of the merged file into its own data file: a chain of calls without shared state.
- `matchRequestedNodes`, `Init`, `getLogsEndpoints` and `dispatchLogs` of the deprecated job: lookups that would only add easy members.
- The progress percentage, the summary report texts and time stamps of the deprecated job.
- A fetcher whose temporary file cannot be created: the job then returns before it waits for anything.
- Errors of single zips while the deprecated bundle is put together; its gathered zips are taken as readable.
- The end of goroutines after a cluster bundle is complete: the job channel is never closed, and workers are not claimed to exit.
- Merge.MergeZips: what a failed merge leaves in the output file is not described, since the caller does not use it.
- Merge.AppendToZip: on failure the entries already copied are not described, for the same reason.
- Merge.AppendAll: likewise.
- Sending the data file: whether the file is still there while it is sent is not modelled, only that it was when it was looked for.
- PullTiming.RoundOnTime: a token that is free goes to a waiting host at once, and a pull takes no more than the timeout of its request; the time that the scheduler and the decoding of an answer take is not modelled.
- SharedDirectory.LastDownloadKept: a download acts at one moment; two that write the same file at the same time are not modelled.
- HealthIndex.OrderIndependent: the order of the host list and the first-seen title, timestamp and pretty name do depend on the order of arrival.
- HealthIndex.MonitoringResponse.PublishPull: the time of the update and the lock are left out; the help text of the two single lookups is left out too.
