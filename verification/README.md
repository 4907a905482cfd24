# The accounting of dialtone-watcher

dialtone-watcher polls the processes and sockets of a machine, turns cumulative
socket counters into deltas, books every delta in several places at once, looks
up names for public addresses in the background, and uploads a summary of each
period. This project models that engine and proves what it keeps over every run:
no byte is lost or counted twice, the books agree with each other, the lookup
protocol is safe under every interleaving, and nothing depends on the order in
which Go visits its maps, except which hosts get into a full lookup queue and in
what order hosts are queued. The small codecs around it (conntrack lines, `ss`
output, string keys, a DNS query, unit scaling) are proved against renderers or
independent readers.

## How it is laid out

- **State and locked regions.** `ServiceModel`, `UploadWindow`, `Accounts`,
  `Processes` and `Payloads` hold the state as values and each locked region as
  a function on it. Where Go iterates over a map, the order is an argument; where
  it sorts, any arrangement that the comparison permits is a possible result.
- **Objects.** `Services.Service` and `Uploaders.Uploader` are the mutable
  objects of the program. Each method has the loops of the source and is tied to
  the function of the same region. `Daemons.Daemon` puts the main goroutine and
  the lookup worker around them; its methods take steps of the transition
  system and nothing else, so every theorem about runs is about the objects.
- **Transition system.** `Watcher` has the steps process poll, network poll (or
  its failure), end of poll, accepted or refused upload, dequeue, completed
  lookup, and shutdown. The worker may move at every point where the lock is
  free, also while an upload is on its way, and because receiving from the queue
  takes no lock, it may also take one host in the middle of a network poll. (The
  other locked regions do not touch the queue, so a receive in one of them is a
  receive before or after it.) `Polling` and `Safety` show
  that each step keeps one invariant, `Watcher.Inv`, made of the pieces that
  `Records`, `Lookups`, `UploadWindow` and `Ledger` prove separately.
- **Main results.** `Theorems` states them over all runs; `Outcomes` says over all
  runs what the records, the payloads and the cache show, in terms of the
  readings, observations, lookup results and times that were put in. `PollEffects` says what
  one network poll does to one record without mentioning the loop; `Confluence`,
  `Summaries`, `Candidates` and the codec modules state the others.

The reference for the byte ledger is `Ledger.Bill`. It looks at the successful
collections only, one socket at a time: a counter segment closes when the
counter drops or the socket is absent, a closed segment is worth its last value,
an open one its live value. It knows nothing of deltas, windows or uploads.
The field `audit` of the system is bookkeeping that no step reads;
`Theorems.AuditIsTrace` says what each part of it is in terms of the steps.

## How the source is read

- Byte counters are unbounded naturals. `Theorems.NoCounterWraps` shows that
  none of them, and no sum RX + TX that is compared, reaches 2^64 as long as the
  bytes credited over the whole run stay below it, which is when the 64-bit
  arithmetic of the source agrees with the model.
- CPU and memory readings are reals, so NaN and rounding do not occur.
- Times are integers in nanoseconds and never run backwards, as `time.Now`
  carries a monotonic reading. A zero start time is `None`.
- `isPublicIP`, `normalizeResolvedHost`, `netip.ParseAddr` and
  `strings.ToLower` are arbitrary pure functions; the only fact used is that the
  empty host normalises to the empty host.
- What the operating system reports, the outcome of every collection, lookup and
  HTTP exchange, and the random DNS identifier are inputs.
- The repository's own README says that upload arrays are capped at 12, 20 and
  20 entries. The code uploads everything exportable
  (`internal/watcher/upload.go:358-360`), and the model follows the code.
- Lengths of host names are counted in characters; in the source they are bytes,
  which is the same for ASCII names.

Three limits of functions in the code:

- Two local hosts admit different flows of one socket type under the same key if
  and only if one of them is the other one followed by the separator, a port, and
  nothing or another separator and any text (`Keys.CollisionCondition`). Results
  about keys assume hosts that are apart in this sense, `Keys.Apart`; hosts
  without the separator always are.
- `parseLinuxSocketUsers` reads process names, which `ss` prints as they are, as
  if they were syntax. `Sockets.RenderedOwnersReadBack` says what it returns for
  any names: the list ends at a name with a closing bracket and a space in it, and
  in front of each owner come the owners that its name is taken for. So a process
  called `pid=1,fd=2)` adds an owner (`Sockets.PhantomOwner`), and one called
  `a) b` hides itself and all behind it (`Sockets.HiddenOwner`);
  `Sockets.RenderedOwnersParse` says exactly when the owners read back.
- `buildDNSQuery` accepts hosts whose name is longer than section 2.3.4 of RFC
  1035 allows (`DnsQuery.NameLimit` says exactly which,
  `DnsQuery.NameLimitExceeded` names one), although its only caller passes a few
  short constants.

## Model

| member | source | states |
|---|---|---|
| `Theorems.EndToEndLedger` | internal/watcher/watcher.go:123-157 | for every run, acknowledged bytes plus the current window's bytes equal, summed over all sockets, the last values of all closed counter segments plus the live values; in each direction separately, whatever collections and uploads failed |
| `Theorems.CleanShutdownLosesNothing` | internal/watcher/watcher.go:292-301 | after a shutdown whose last upload, if any, was accepted, the acknowledged bytes alone are the whole bill |
| `Theorems.PeriodsPartitionRun` | internal/watcher/upload.go:275-329 | acknowledged periods start at the first poll and follow each other without gap or overlap, the window continues the last one, each lasted at least the interval unless cut by the shutdown, and every completed poll is in exactly one of them |
| `Theorems.PayloadIntegrity` | internal/watcher/upload.go:331-362 | every payload acknowledged in any run is sound on its own: connections have their domains, sums are bounded level by level, averages by peaks, tracked domains by tracked connections |
| `Theorems.SentPayloadIsSound` | internal/watcher/upload.go:301-305 | so is every payload that is sent after a poll or by the shutdown, accepted or refused |
| `Theorems.LookupSafety` | internal/watcher/watcher.go:463-484 | at every lock-free point of every interleaving, receives in the middle of a poll included, a host is pending if and only if it is queued or in flight, in one place only, never while cached, and at most 257 are |
| `Theorems.NamesAgreeWithCache` | internal/watcher/resolver.go:28-47 | at every lock-free point every record shows the cached name of its host or none, also records the last poll did not observe |
| `Theorems.StepGrowsCache` | internal/watcher/resolver.go:30-37 | no step changes or removes a resolved name, and a lookup without result leaves the cache as it is, so the delete never deletes anything |
| `Theorems.ResolvedForever` | internal/watcher/watcher.go:468-470 | a name resolved at some point of a run is cached unchanged at every later point |
| `Theorems.TrackedMapsLinked` | internal/watcher/watcher.go:257-267 | at every point of every run the tracked domains are exactly the domains of tracked connections, last seen with the latest of them, hence never more numerous, although both maps are aged independently |
| `Theorems.EvictionConserves` | internal/watcher/watcher.go:212-238 | a tracked domain counts its live connections plus exactly what its evicted ones had counted since its record was created, so never less than the live ones |
| `Theorems.WindowLedgersPartition` | internal/watcher/upload.go:232-273 | window totals are the sum over window domains, each of which is the sum over its window connections, and the observations counted are those since the last acknowledgement |
| `Theorems.NoCounterWraps` | internal/watcher/watcher.go:219-238 | as long as the bytes billed to the run stay below 2^64 no byte counter of the service or the window, and no RX + TX, reaches it |
| `Theorems.CountersWithinBill` | internal/watcher/watcher.go:219-238 | every byte and observation counter of the service and the window is at most what the bill counts over all sockets |
| `Theorems.PollCountersBounded` | internal/watcher/watcher.go:143-146 | the service counts exactly the completed polls, a window at most these, a process at most its listings, and the window's record of a process at most the process polls |
| `Theorems.RunIsBounded` | internal/watcher/watcher.go:202-268 | in every run the stored samples are those of the last collection and all domain counters together never exceed the bill |
| `Theorems.AuditIsTrace` | internal/watcher/watcher.go:123-157 | the bookkeeping fields are functions of the steps taken: collections, acknowledged payloads, completed polls, first poll, observations since the last acknowledgement, counters carried over from evicted connections |
| `Theorems.PayloadIsPeriod` | internal/watcher/upload.go:355-356 | an accepted payload carries exactly the bytes and the polls of the run so far that no earlier accepted payload carried |
| `Theorems.ProcessesAreRecorded` | internal/watcher/upload.go:195-225 | at every point of every run the window's statistics of a process are those of its snapshots in the process polls since the last acknowledgement |
| `Theorems.PayloadStatistics` | internal/watcher/upload.go:415-430 | an accepted payload lists exactly the named processes that were tracked in such a poll, each with the statistics of exactly those snapshots |
| `Outcomes.TrackedProcessShown` | internal/watcher/watcher.go:170-189 | at every point of every run a tracked process shows the id, name, command, CPU and memory of its latest reading, and counts its listings since it is tracked |
| `Outcomes.PayloadListsProcesses` | internal/watcher/upload.go:415-443 | an accepted payload lists a process if and only if it was tracked in the period under a last name that is not empty, with the count, means, maxima, last name and last readable command of its snapshots |
| `Outcomes.UploadDecision` | internal/watcher/upload.go:283-291 | after a poll an upload is due if and only if at least the upload interval has passed since the last acknowledged period ended, or since the first poll |
| `Outcomes.CacheIsResolutions` | internal/watcher/resolver.go:25-37 | at every point of every run the cache holds exactly the names that lookups have come up with |
| `Outcomes.RecordsShowResolutions` | internal/watcher/resolver.go:38-45 | at every point of every run each record shows the name that a lookup came up with for its host, or none |
| `Outcomes.MarksArePeaks` | internal/watcher/upload.go:227-229 | at every point of every run the window's marks are the most processes, hosts and connections tracked in a poll since the last acknowledgement |
| `Outcomes.SentPayloadHead` | internal/watcher/upload.go:331-357 | the head of every payload sent: schema 1, the period, its length in whole seconds, the running flag, and the larger of current and peak numbers of processes, hosts and connections |
| `Daemons.Daemon.constructor` | internal/watcher/watcher.go:83-93 | the new objects are in the initial state of the transition system |
| `Daemons.Daemon.BeginPoll` | internal/watcher/watcher.go:123-133 | the objects take exactly the process step |
| `Daemons.Daemon.CollectNetwork` | internal/watcher/watcher.go:135-140 | the objects take exactly one network step, in some iteration order and with the worker receiving in the middle of it if it is idle and ready, or the failure step |
| `Daemons.Daemon.EndPoll` | internal/watcher/watcher.go:142-150 | the objects take exactly the end-of-poll step; the stored summary counts the completed polls of the run; an upload follows if and only if the interval has passed since the last acknowledged period |
| `Daemons.Daemon.Upload` | internal/watcher/watcher.go:151-155 | the objects take exactly the accepted or the refused upload step; the payload is sound and shows the window either way |
| `Daemons.Daemon.PollOnce` | internal/watcher/watcher.go:123-157 | one undisturbed poll adds one completed poll, the collection if there was one, and the payload if there was one and it was accepted, to the history of the run |
| `Daemons.Daemon.TakeJob` | internal/watcher/resolver.go:25 | the objects take exactly the dequeue step; a receive in the middle of a network poll is part of `CollectNetwork` |
| `Daemons.Daemon.CompleteLookup` | internal/watcher/resolver.go:28-47 | the objects take exactly the completion step |
| `Daemons.Daemon.Stop` | internal/watcher/watcher.go:292-301 | the objects take exactly the shutdown step, and a payload sent by it is sound |
| `Daemons.LedgerOfDaemon` | internal/watcher/upload.go:232-239 | the end-to-end ledger holds of the uploader object's window at any moment |
| `Daemons.NamesOfDaemon` | internal/watcher/watcher.go:463-484 | the records and the cache of the service object agree at any moment |
| `Safety.StepKeepsInv` | internal/watcher/watcher.go:123-157 | every enabled step keeps the invariant |
| `Safety.RunKeepsInv` | internal/watcher/watcher.go:97-121 | the invariant holds after every run |
| `Safety.CollectKeepsAccounted` | internal/watcher/watcher.go:202-255 | a network poll moves the window by exactly what the bill grows |
| `Safety.AcceptKeepsInv` | internal/watcher/upload.go:301-306 | an acknowledged upload keeps the invariant: its bytes, polls and period move from the window to the acknowledged side |
| `Safety.CompleteKeepsInv` | internal/watcher/resolver.go:28-47 | the worker's locked region keeps the invariant wherever it interleaves |
| `Watcher.StartIsOk` | internal/watcher/watcher.go:83-93 | the initial state satisfies the invariant |
| `Services.Service.PollProcesses` | internal/watcher/watcher.go:170-200 | the new state is the specified one: refreshed, aged, recorded in the window |
| `Services.Service.EvictStaleProcesses` | internal/watcher/watcher.go:191-195 | keeps exactly the listed processes and those seen at most two intervals ago |
| `Services.Service.CachedDisplayName` | internal/watcher/watcher.go:463-484 | returns the cached name of a public host or "", and queues it exactly when it is neither resolved nor pending and the queue has room |
| `Services.Service.Credit` | internal/watcher/watcher.go:212-248 | books one delta in the domain, the connection and the window at once |
| `Services.Service.Observe` | internal/watcher/watcher.go:203-249 | one loop iteration: delta against the stored sample, sample stored, lookup requested, delta credited |
| `Services.Service.ObserveAll` | internal/watcher/watcher.go:203-249 | the loop does what some enumeration of the observations does, with the receive of a ready worker at its place in it |
| `Services.Service.PollDomains` | internal/watcher/watcher.go:202-268 | the whole region, with samples pruned and both maps aged, for some enumeration and with the receive of a ready worker |
| `Services.Service.ForgetAbsentSamples` | internal/watcher/watcher.go:251-255 | keeps exactly the samples of observed sockets |
| `Services.Service.EvictStaleDomains` | internal/watcher/watcher.go:257-261 | keeps exactly the domains seen at most twelve intervals ago |
| `Services.Service.EvictStaleConnections` | internal/watcher/watcher.go:263-267 | keeps exactly the connections seen at most twelve intervals ago |
| `Services.Service.FinishPoll` | internal/watcher/watcher.go:142-150 | counts the poll in the service and in the window and decides about the upload |
| `Services.Service.CompleteLookup` | internal/watcher/resolver.go:28-47 | updates pending set, cache and every copy of the name in one locked region |
| `Services.Service.RenameConnectionsOf` | internal/watcher/resolver.go:41-45 | renames exactly the connections of the host |
| `Services.Service.TopProcesses` | internal/watcher/watcher.go:311-340 | the result is a prefix of some permitted ranking of all processes |
| `Services.Service.TopProcess` | internal/watcher/watcher.go:303-309 | the head of some permitted ranking, or none if there is no process |
| `Services.Service.TopDomains` | internal/watcher/watcher.go:342-383 | the result is a prefix of some permitted ranking of exactly the domains that pass the filter |
| `Services.Service.TopConnections` | internal/watcher/watcher.go:397-438 | the same for connections |
| `Services.Service.CurrentSummary` | internal/watcher/watcher.go:270-290 | counts and the four rankings of the current records, with limits 1, 6, 60 and 20 |
| `Services.Service.Shutdown` | internal/watcher/watcher.go:292-301 | sends the window if it has a poll; it is reset only on acceptance, and nothing else changes |
| `Uploaders.Uploader.EnsureWindow` | internal/watcher/upload.go:309-320 | starts the window once |
| `Uploaders.Uploader.RecordProcesses` | internal/watcher/upload.go:189-230 | records every process once, in any order, and the high-water mark |
| `Uploaders.Uploader.RecordNetwork` | internal/watcher/upload.go:232-273 | posts one delta to totals, domain and connection, and both high-water marks |
| `Uploaders.Uploader.IncrementPoll` | internal/watcher/upload.go:275-281 | counts one poll in the started window |
| `Uploaders.Uploader.ShouldUpload` | internal/watcher/upload.go:283-291 | due exactly when the window has a poll and is at least the interval old |
| `Uploaders.Uploader.BuildPayload` | internal/watcher/upload.go:331-362 | the payload shows the window: everything exportable exactly once, ranked, with its totals and marks |
| `Uploaders.Uploader.Flush` | internal/watcher/upload.go:293-307 | nothing is sent for an empty window; the window is reset if and only if a payload was accepted |
| `Uploaders.AllUploadProcesses` | internal/watcher/upload.go:415-443 | lists exactly the named processes once, ranked, commands blanked unless read |
| `Uploaders.AllUploadDomains` | internal/watcher/upload.go:445-471 | lists exactly the exportable domains once, ranked |
| `Uploaders.AllUploadConnections` | internal/watcher/upload.go:473-499 | lists exactly the exportable connections once, ranked |
| `Ledger.SettledStep` | internal/watcher/watcher.go:486-491 | the delta against the previous sample is exactly the growth of closed plus live segments, for drops and absences too |
| `Ledger.BillStep` | internal/watcher/watcher.go:203-210 | one more collection adds the sum of its deltas to the bill |
| `Ledger.DeltasTelescope` | internal/watcher/watcher.go:204-210 | over an uninterrupted stretch without drops the credited deltas add up to the final counter value less the stored value they started from, which is none for a new socket or after a reset |
| `Ledger.CreditedIsSettled` | internal/watcher/watcher.go:204-210 | over any stretch, drops included, the credited deltas are what it adds to closed and live segments |
| `Ledger.PollStoresCollection` | internal/watcher/watcher.go:251-255 | after a poll the stored samples are exactly the collected ones |
| `Ledger.BaselineUntouched` | internal/watcher/watcher.go:204-210 | within a poll every delta is taken against the sample from before the poll |
| `Ledger.PollAdds` | internal/watcher/upload.go:237-239 | a poll adds to the window totals exactly the sum of the collection's deltas |
| `Records.CreditKeepsLinkage` | internal/watcher/watcher.go:212-238 | booking a delta keeps the two maps linked and their ages ordered |
| `Records.EvictKeepsLinkage` | internal/watcher/watcher.go:257-267 | independent ageing keeps the two maps linked |
| `Records.EvictKeepsConserved` | internal/watcher/watcher.go:257-267 | eviction moves counters from live connections to the carried sum and loses none |
| `Records.LinkageMeaning` | internal/watcher/watcher.go:212-238 | the link means equal key sets, ages that are maxima, and at most as many domains as connections |
| `Records.ConservedDomain` | internal/watcher/watcher.go:219-238 | a domain counts its live connections plus what was carried over, so never less than the former |
| `Accounts.SameKeySameConnection` | internal/watcher/watcher.go:224-232 | a record found under a key belongs to the posting's process, protocol and host |
| `Accounts.PostCreditsDomains` | internal/watcher/upload.go:241-249 | a posting adds its amount to the sum over all domains, whether or not the record is new |
| `Accounts.PostCreditsConnections` | internal/watcher/upload.go:251-265 | a posting adds its amount to the sum over the connections of its own domain |
| `Accounts.PostSparesConnections` | internal/watcher/upload.go:251-265 | a posting leaves the connections of every other domain alone |
| `Accounts.PostKeepsBalanced` | internal/watcher/upload.go:241-265 | a posting keeps every domain equal to the sum of its connections plus what was carried over |
| `Lookups.RequestAllKeepsProtocol` | internal/watcher/watcher.go:468-483 | any number of lookups requested by a poll keep the protocol |
| `Lookups.RequestsAroundKeepProtocol` | internal/watcher/resolver.go:25 | a poll in the middle of which the worker takes a host keeps the protocol |
| `Lookups.DequeueKeepsProtocol` | internal/watcher/resolver.go:25 | taking a host off the queue keeps the protocol |
| `Lookups.CompleteKeepsProtocol` | internal/watcher/resolver.go:28-37 | completing a lookup keeps the protocol, only adds to the cache, and does nothing to it for an unnamed host |
| `Lookups.PendingAtMost` | internal/watcher/resolver.go:22 | the protocol bounds the pending hosts by the queue capacity plus one |
| `Lookups.CompleteKeepsCopies` | internal/watcher/resolver.go:30-45 | the worker updates the cache and every copy consistently |
| `Lookups.RecordNetworkKeepsNames` | internal/watcher/upload.go:246-262 | window names stay unset or equal to the cached name, connections agreeing with their domain |
| `UploadWindow.RecordNetworkKeepsConsistent` | internal/watcher/upload.go:232-273 | a posting keeps the window's ledgers, keys, links and marks consistent |
| `UploadWindow.RecordProcessesKeepsConsistent` | internal/watcher/upload.go:189-230 | recording processes keeps the window consistent; every record has a history of snapshots that explains it (which one, says `ProcessesAreRecorded`) |
| `UploadWindow.RecordedUpToStep` | internal/watcher/upload.go:195-225 | recording one more process touches only that process, so the order is immaterial |
| `Processes.TrackedProcesses` | internal/watcher/watcher.go:170-195 | a process is tracked if and only if it was listed now or seen at most ten seconds ago, unchanged in the latter case |
| `Processes.ListedProcessShown` | internal/watcher/watcher.go:173-189 | a listed process shows the last reading of it in the listing, is as old as the poll, and counts each occurrence |
| `Processes.EachReadingShown` | internal/watcher/watcher.go:173-189 | in a listing without repetition every process shows the id, name, command, CPU and memory that were read, and has been seen once more |
| `Processes.RecordedStatistics` | internal/watcher/upload.go:209-224 | the incremental statistics are the count, the means and the maxima (at least zero) of all readings, with the latest name and the latest command that was readable |
| `Processes.AverageAtMostPeak` | internal/watcher/upload.go:214-224 | an average never exceeds its peak |
| `Payloads.PayloadIsSound` | internal/watcher/upload.go:331-362 | every payload of a consistent window is sound |
| `Payloads.ConnectionsHaveDomains` | internal/watcher/upload.go:483 | the two export filters never export a connection without its domain |
| `Payloads.ConnectionsWithinDomain` | internal/watcher/upload.go:359-360 | exported connection counters per domain never exceed the domain's |
| `Payloads.DomainsWithinTotals` | internal/watcher/upload.go:355-359 | exported domain bytes never exceed the exported totals |
| `Payloads.UploadOrders` | internal/watcher/upload.go:432-440 | the three upload comparisons are strict weak orders |
| `Payloads.PayloadIsOrdered` | internal/watcher/upload.go:432-496 | processes are listed by average CPU, then average memory, then polls; hosts and connections by bytes, then observations; the greatest first |
| `Payloads.PayloadListsRecords` | internal/watcher/upload.go:455-486 | exactly the window's records are listed, each once, except those of public addresses without a usable name |
| `Payloads.PayloadDuration` | internal/watcher/upload.go:338 | the duration is the length of the period in seconds, truncated toward zero |
| `Ranking.SortSlice` | internal/watcher/watcher.go:321-329 | some permutation of the input sorted by the comparison; callers use nothing else |
| `Ranking.PrefixOutweighs` | internal/watcher/watcher.go:374-381 | the first k of any ranking by weight weigh at least as much as any k elements |
| `Ranking.TopIsOptimal` | internal/watcher/watcher.go:374-381 | a truncated ranking has min(limit, eligible) elements, is sorted, and no set of that size or smaller weighs more |
| `Ranking.HeadsTie` | internal/watcher/watcher.go:303-309 | the heads of two unstable sorts of the same set tie |
| `Ranking.TopIsOrdered` | internal/watcher/watcher.go:331-338 | in a truncated ranking nothing beats anything in front of it, and nothing left out beats anything shown |
| `Summaries.TopDomainsOptimal` | internal/watcher/watcher.go:342-383 | no choice of as many eligible domains carries more traffic than the ones shown |
| `Summaries.TopConnectionsOptimal` | internal/watcher/watcher.go:397-438 | the same for connections |
| `Summaries.TopProcessTies` | internal/watcher/watcher.go:283-284 | the top process ties with the first of the top processes, and nothing beats it |
| `Summaries.TopProcessesAreBusiest` | internal/watcher/watcher.go:311-340 | the processes shown come by CPU, then memory, then polls, the greatest first, and none left out has more |
| `Summaries.TopProcessesSize` | internal/watcher/watcher.go:331-339 | min(limit, tracked) processes are shown, each once |
| `Summaries.TopDomainsAreBiggest` | internal/watcher/watcher.go:342-383 | the domains shown come by bytes, then received bytes, then observations, the greatest first, and none left out has more |
| `Summaries.TopConnectionsAreBiggest` | internal/watcher/watcher.go:397-438 | the connections shown come by bytes, then observations, the greatest first, then by process name and host, the smallest first, and none left out comes before |
| `Summaries.DomainEligible` | internal/watcher/watcher.go:385-395 | a domain is eligible unless both its own and its shown name are empty once normalised or a public address |
| `Summaries.ConnectionEligible` | internal/watcher/watcher.go:440-450 | the same for connections |
| `Basics.StringLessMeaning` | internal/watcher/watcher.go:420-422 | string comparison decides at the first difference, where the smaller string has ended or has the smaller character |
| `Summaries.TxTieBreakUnreachable` | internal/watcher/watcher.go:359-372 | the comparison of domains is the one without its TX tie-break |
| `Summaries.ProcessOrder` | internal/watcher/watcher.go:321-329 | the process comparison is a strict weak order |
| `Summaries.DomainOrder` | internal/watcher/watcher.go:359-372 | the domain comparison is a strict weak order that prefers more traffic |
| `Summaries.ConnectionOrder` | internal/watcher/watcher.go:414-427 | the connection comparison, string tie-breaks included, is a strict weak order that prefers more traffic |
| `Confluence.ObservationsCommute` | internal/watcher/watcher.go:203-249 | two iterations for different sockets commute, even for the same connection |
| `Confluence.OrderIrrelevant` | internal/watcher/watcher.go:203-249 | any two enumerations of the observations lead to the same records, samples and window |
| `Confluence.PollIsConfluent` | internal/watcher/watcher.go:202-268 | for any two iteration orders, with the worker receiving anywhere or not at all, the records, samples and window come out the same; the queues differ in length by one at most, and with room for all wanted hosts the same hosts are pending, and the same are queued or taken; without receives both queues are filled to the same length with wanted hosts |
| `Confluence.RequestsFill` | internal/watcher/watcher.go:468-483 | in any order and with any number of free places, entries and marks stay, and exactly min(free places, wanted hosts) wanted hosts are added, once each, and become pending |
| `Confluence.FilledMeaning` | internal/watcher/watcher.go:472-481 | the old queue is a prefix of the new one, only wanted hosts are added, and a host is pending if and only if it was or has been added |
| `Confluence.BacklogIsConfluent` | internal/watcher/watcher.go:468-483 | for any two orders the queues are equally long, filled with wanted hosts, and the same marks exist; with room for all, the queues differ only in order |
| `Confluence.ReceiveWithRoom` | internal/watcher/resolver.go:25 | with room for all wanted hosts a receive in the middle of a poll only moves the head of the final queue to the worker |
| `Confluence.ReceiveShortens` | internal/watcher/resolver.go:25 | however full the queue, a receive in the middle of a poll leaves it shorter by one at most |
| `PollEffects.PollOfConnection` | internal/watcher/watcher.go:202-268 | a connection is tracked after a poll if and only if it was observed or is at most sixty seconds old; observed, it gains exactly the deltas of its observed sockets; otherwise it is unchanged |
| `PollEffects.PollOfDomain` | internal/watcher/watcher.go:202-268 | the same for a domain, named as the cache says |
| `PollEffects.PollOfWindow` | internal/watcher/upload.go:232-273 | the window's records gain exactly the same deltas and none is dropped |
| `PollEffects.ObservedConnection` | internal/watcher/watcher.go:224-238 | an observed connection shows its process, protocol and host, the cached name of the host and the name of the tracked process or "", and gains exactly the deltas of the observed sockets with its process, protocol and host |
| `PollEffects.ObservedDomain` | internal/watcher/watcher.go:212-222 | an observed host shows its cached name and gains exactly the deltas of the observed sockets to it |
| `PollEffects.ObservedInWindow` | internal/watcher/upload.go:241-265 | the same for both records in the window |
| `PollEffects.PollOfMarks` | internal/watcher/upload.go:267-272 | the high-water marks become the larger of the old mark and the number of old and observed records together, in any order |
| `PollEffects.ConnectionAges` | internal/watcher/watcher.go:237 | after the loop observed connections are as old as the poll and all others as old as before |
| `Keys.ConnectionKeyInjective` | internal/watcher/watcher.go:452-454 | equal keys mean equal process, protocol and host, for any host |
| `Keys.DatagramLabels` | internal/watcher/network.go:48-58 | which ports stand behind each label of a datagram socket |
| `Keys.StreamLabels` | internal/watcher/network.go:23-46 | which ports, in their 16 bits, stand behind each label of any other socket |
| `Keys.FlowKeyInjective` | internal/watcher/network_linux.go:378-380 | equal keys mean equal flows if the local hosts lack the separator; the remote hosts may be any strings |
| `Keys.SocketKeyInjective` | internal/watcher/network_linux.go:149-158 | equal seven-field keys mean equal sockets if the local hosts lack the separator |
| `Keys.CollisionCondition` | internal/watcher/network_linux.go:378-380 | two local hosts admit different flows with one key if and only if one is the other followed by the separator, a printed port, and nothing or another separator and any text |
| `Keys.ApartFlows` | internal/watcher/network_linux.go:378-380 | equal keys mean equal flows if the local hosts are apart, that is, do not collide in this sense |
| `Keys.ApartWithoutBar` | internal/watcher/network_linux.go:378-380 | hosts without the separator are apart |
| `Keys.SocketKeySplits` | internal/watcher/network_linux.go:149-158 | seven-field keys are equal if and only if process, descriptor and flow key are, so they collide exactly where flow keys do |
| `Keys.FlowKeyCollision` | internal/watcher/network_linux.go:378-380 | an instance of such a collision |
| `Decimal.ParseIntOfFormat` | internal/watcher/network_linux.go:195 | reading a printed signed number returns it, over the whole range of the width |
| `Decimal.ParseUintOfFormat` | internal/watcher/network_linux.go:354 | reading a printed unsigned number returns it, over the whole range of the width |
| `Conntrack.ParseConntrackLine` | internal/watcher/network_linux.go:288-336 | the loop over the fields computes the specified reading of the line, for malformed lines too |
| `Conntrack.CollectAttributes` | internal/watcher/network_linux.go:308-315 | the attribute map holds all values of every key in order |
| `Conntrack.ReadTuple` | internal/watcher/network_linux.go:338-368 | one direction is read exactly when all five attributes are present and well formed |
| `Conntrack.NormalizedAddress` | internal/watcher/network_linux.go:382-394 | an address, with or without brackets and zone, becomes its canonical form, or lower case if it is not an address |
| `Conntrack.NoHost` | internal/watcher/network_linux.go:383-386 | nothing but brackets is no host |
| `Conntrack.OtherProtocolsIgnored` | internal/watcher/network_linux.go:288-306 | only lines about UDP with at least ten fields report anything |
| `Conntrack.RenderedLineParses` | internal/watcher/network_linux.go:288-336 | a rendered pair of flows, behind any state columns and with any unrelated or flag fields interleaved, reads back as exactly its two entries |
| `Conntrack.EntriesMirror` | internal/watcher/network_linux.go:326-335 | if the source hosts are apart, there are two entries if and only if the directions differ in an endpoint, each with the other's RX and TX swapped |
| `Conntrack.MirroredReply` | internal/watcher/network_linux.go:326-335 | for a mirrored reply between hosts that are apart the two ends see each other's bytes, unless a socket talks to itself |
| `Conntrack.ParseConntrackSamples` | internal/watcher/network_linux.go:272-286 | the nested loops compute the entries of all lines, later ones winning |
| `Conntrack.CountersOfFlow` | internal/watcher/network_linux.go:278-283 | the string-keyed map holds for a flow what the last line about it says, and nothing if there is none, if the local hosts of the lines are apart from the flow's |
| `Sockets.ParseSocketUsers` | internal/watcher/network_linux.go:172-222 | the loop over the pieces computes the specified list of owners, malformed pieces skipped |
| `Sockets.ReadPiece` | internal/watcher/network_linux.go:186-218 | one iteration: an owner, or none where the source continues |
| `Sockets.RenderedOwnersReadBack` | internal/watcher/network_linux.go:172-222 | what parsing rendered owners returns whatever their names are, with any text in front and behind: each name's phantom owners and then the owner, up to a name that looks like the end |
| `Sockets.RenderedOwnersParse` | internal/watcher/network_linux.go:172-222 | if no name looks like the end of the list, the owners read back as exactly their (pid, fd) pairs in order if and only if no name is taken for an owner; if no name is, if and only if none looks like the end |
| `Sockets.CutsByName` | internal/watcher/network_linux.go:182-184 | a name looks like the end of the list if and only if it contains a closing bracket with a space behind it |
| `Sockets.PhantomOwner` | internal/watcher/network_linux.go:186-218 | a process named `pid=1,fd=2)` is reported with an extra owner |
| `Sockets.HarmlessNames` | internal/watcher/network_linux.go:186-218 | processes named `pid=x` or `pid=1,fd=2` are reported correctly |
| `Sockets.HiddenOwner` | internal/watcher/network_linux.go:182-184 | a process named `a) b` hides itself and all owners behind it |
| `SocketSamples.ParseSocketByteSamples` | internal/watcher/network_linux.go:111-164 | the nested loops compute the map of all reports of all lines, later ones winning |
| `SocketSamples.SampleOfSocket` | internal/watcher/network_linux.go:148-160 | if the local hosts of the reports are apart from the socket's, the string-keyed map has a sample for it if and only if some report is about it, and it is the last such report's |
| `SocketSamples.RenderedEndpointParses` | internal/watcher/network_linux.go:243-270 | a rendered address, bracketed or not, with or without zone, reads back as host and port |
| `SocketSamples.NoEndpoint` | internal/watcher/network_linux.go:243-267 | a wildcard is no endpoint whatever its port, and neither is a text without a port |
| `SocketSamples.CounterFound` | internal/watcher/network_linux.go:224-241 | the counter behind the first occurrence of its name is read in full, and an absent one as zero |
| `SocketSamples.EntryReports` | internal/watcher/network_linux.go:114-160 | what a rendered line reports whatever the names of its owners are |
| `SocketSamples.RenderedEntryReports` | internal/watcher/network_linux.go:114-160 | a rendered line, with or without owners, details or either counter, reports its counters for exactly its owners if and only if there is nothing to report or the names read back, by the conditions of `RenderedOwnersParse` |
| `SocketSamples.OutputReports` | internal/watcher/network_linux.go:111-164 | what rendered output reports whatever the names are: the reports of its lines in order |
| `SocketSamples.RenderedOutputReports` | internal/watcher/network_linux.go:111-164 | if no name looks like the end of its list, rendered output reads back as exactly the expected reports in order if and only if no name in a line with something to report is taken for an owner |
| `Collectors.Collect` | internal/watcher/network_linux.go:31-74 | the nested loops observe the listed sockets with a usable remote host, later ones winning |
| `Collectors.EverySocketObserved` | internal/watcher/network_linux.go:39-71 | if the local hosts are apart, every assembled socket has an observation of its own, and there is no other |
| `Collectors.ListedSocketObserved` | internal/watcher/network_linux.go:33-71 | if the local hosts of the listing are apart, a listed socket with a usable remote host is observed under its seven fields, for its process and normalised host, with the label of its type and remote port, and the counters read by flow for a datagram and by socket otherwise, or zero |
| `Collectors.OnlyListedObserved` | internal/watcher/network_linux.go:33-71 | every observation comes from such a socket |
| `Collectors.StreamCounters` | internal/watcher/network_linux.go:55 | an observed stream socket carries the counters of the last `ss` line about it, or zero, if the local hosts of the lines are apart from its own |
| `Collectors.DatagramCounters` | internal/watcher/network_linux.go:56-64 | an observed datagram socket carries what the last connection-tracking line about its flow says, or zero, if the local hosts of the lines are apart from its own |
| `Candidates.BestWhoisCandidate` | internal/watcher/resolver.go:206-230 | the result has most votes, the smallest name among equals, or is empty without votes |
| `Candidates.Tabulate` | internal/watcher/resolver.go:207-218 | the map counts exactly the votes, empty and ignored domains aside |
| `Candidates.ElectionIsUnique` | internal/watcher/resolver.go:220-227 | at most one candidate can be elected, so the map's order is immaterial |
| `Candidates.WhoisOrderIrrelevant` | internal/watcher/resolver.go:206-230 | permuting the matches does not change the elected candidate |
| `Candidates.WhoisWinner` | internal/watcher/resolver.go:206-230 | the winner is the registrable domain of most matches, registries aside, the smallest of several; there is none if and only if no match has an eligible one |
| `Candidates.ShortHost` | internal/watcher/resolver.go:388-391 | a host of one or two labels is its own registrable domain |
| `Candidates.LongHost` | internal/watcher/resolver.go:393-402 | of a longer host it is the last two labels, or three below a two-letter country with a usual second level |
| `Candidates.EmptyHost` | internal/watcher/resolver.go:383-386 | a host that normalises to nothing has no registrable domain |
| `Candidates.BestHostnameCandidate` | internal/watcher/resolver.go:331-365 | the result beats every other non-empty host; without hosts it is empty; the index is out of range if and only if there are hosts and all are empty |
| `Candidates.HostOrder` | internal/watcher/resolver.go:349-362 | the comparison of hosts is a strict weak order |
| `Candidates.BestHostIsUnique` | internal/watcher/resolver.go:331-365 | the best host depends only on the set of hosts, not on their order or multiplicity |
| `Candidates.BestHostMeaning` | internal/watcher/resolver.go:349-362 | a host with labels in front of its registrable domain beats one without; among equals the shorter, then the smaller wins |
| `Candidates.ParseTlsSan` | internal/watcher/resolver.go:259-280 | the result is the best of all entries that normalise to something, and the empty list is never indexed |
| `Candidates.RenderedSanCandidates` | internal/watcher/resolver.go:259-277 | of a printed list of alternative names the candidates are exactly the normalised hosts, wildcards stripped |
| `DnsQuery.BuildDnsQuery` | internal/watcher/test_traffic_linux.go:227-248 | a packet is built if and only if all labels have 1 to 63 octets |
| `DnsQuery.PutUint16` | internal/watcher/test_traffic_linux.go:240-242 | writes two octets in network order in place and nothing else |
| `DnsQuery.QueryRoundTrip` | internal/watcher/test_traffic_linux.go:227-248 | a reader after sections 3.1, 4.1.1 and 4.1.2 of RFC 1035 finds one recursive address query for exactly the host's labels, in a packet 18 octets longer than the host |
| `DnsQuery.EncodedLength` | internal/watcher/test_traffic_linux.go:230-237 | the encoded labels are one octet longer than the dotted host |
| `DnsQuery.NameLimit` | internal/watcher/test_traffic_linux.go:231-233 | the encoded name respects the limit of 255 octets if and only if the host has at most 253; the function does not enforce it |
| `DnsQuery.NameLimitExceeded` | internal/watcher/test_traffic_linux.go:231-233 | a host that the function accepts although its name is too long |
| `FormatBytes.Scale` | main.go:226-238 | the divisor is 1024^(exp+1) without overflow, divisor <= value < 1024 * divisor, and the suffix index is in range, for every unsigned 64-bit value of at least 1024 |
| `FormatBytes.LargerUnitsExceed` | main.go:232-236 | every unit larger than the chosen one exceeds the value |

## Left out

- Process, hardware and socket collection (`process.Processes`, gopsutil, `nettop`, reading `/proc`): arbitrary inputs; the network step takes any observations, in particular those that `Collectors.Collect` assembles; a poll whose process list cannot be read takes no step.
- The lookup commands (`host`, `dig`, `whois`, `openssl`, `curl`, the resolver), regular expressions, URL parsing and `parsePTROutput`: a completed lookup takes an arbitrary name, possibly empty.
- HTTP and JSON: an upload is accepted or refused.
- Uploaders.Uploader.BuildPayload: does not model the machine block, which is copied from the hardware profile with a normalised label.
- Services.Service.CurrentSummary: does not model the process id, the pid namespace and the hardware profile, which are copied from the environment.
- Persistence of the summary and status files, including what is on disk after a shutdown.
- Command line, signals, pid namespaces, environment configuration and test traffic loops.
- macOS `nettop` parsing and IP address classification.
- The choice between the two connection-tracking files, and the line length limit of the scanner that reads them.
- `normalizeResolvedHost` itself: an uninterpreted function.
- Aliasing: records are values in maps, where the source has pointers to structs; no two map entries of the source share a record.
- The printed form of `formatBytes`, which rounds a floating-point quotient.
- Ranking.SortSlice: stands for `sort.Slice` and `slices.SortFunc`; only its contract is used, so results hold for every permutation that the library may choose.
- UploadWindow.RecordProcessesKeepsConsistent: does not name the history of a record; `Theorems.ProcessesAreRecorded` does, for every point of every run.
