# Verification models of the LLM traffic monitor

The monitor watches packets on port 443, groups them into sessions, bills the
sessions, stores them and reports on them. These Dafny modules model its hard
parts and prove what they promise.

- **Session tracking.** `Model`, `Keys` and `Tracker` give the tracker as pure
  functions over packets, hints and the two flow indexes. `Engine` gives it as
  the program has it: objects updated in place, two index maps, and request logs
  that the session and the per-job map share. Every engine method is proved to
  move the objects exactly as the pure functions do, so what `Indexes`,
  `Ledger`, `SessionTimes`, `Windowing`, `WholeStream`, `WindowHints`,
  `MergeOrder`, `ConnectionLives`, `RequestKeys`, `RequestLives` and `WindowKeys`
  prove about those functions holds of the objects.
- **Storing.** `Store` is the batched upsert of sessions, `Writer` is one
  parse result from merge to table and the loop over the results, `TableSums` is
  what the table adds up to, `TableNames` what names its rows, `FanOut` is the
  batched insert of request logs and transport events under a four-slot
  semaphore (the two inserts are the same code), and `Pipeline` is the job
  protocol of workers, writer and backfill, with `JobRows` on what becomes of a
  job's row, `JobStatus` on what its columns say and `ResetSafety` on resetting
  one by hand. `FanOut`, `Pipeline` and the three beside it are about step
  relations, and their results are about every interleaving.
- **Reading.** `Capture` is the scan for finished capture files. `Sni` is the
  ClientHello reader, proved against an encoder of ClientHello records
  (sections 4.1.2, 4.2 and 5.1 of RFC 8446, section 3 of RFC 6066).
- **Reporting.** `Users` (with `Rank` and `Order`) is the per-user view and its
  CSV export, `UserColumns` says what each of their columns holds, `Tokens` is the
  token and cost arithmetic, `Csv` the quoting, and `Paging` the server's pages
  and the client loop over them. `Lists` holds shapes that several modules share.

Inputs the modules take as they come: parsed packets with their hints and last
epoch, the wall clock where the code reads it, the domain matcher and the
address hints as functions, the directory listing and the free room of a
channel, and the database's answer to each statement. Maps and multisets stand
for tables. Costs, epochs and rates are exact reals, and conversions to integers
truncate toward zero as the code's do. Interface names and addresses hold no
`|`; domains may.

Where the code and its own notes, the monitor's README, differ, the modules
follow the code. Line numbers below and in the table that cite `README.md` are
those of the monitor's README:

- The notes describe `parsed_ready` as waiting for the writer (`README.md:757`).
  The worker writes it after it has sent the result, so it can replace `merged`
  for good (`Pipeline.MergedOverwritten`; exactly when, `JobRows.MergedSurvives`),
  and time-window queries, which look for `merged`, then miss that job.
- The notes advise resetting jobs stuck in `merging` to `queued`
  (`README.md:717`). Such a job may already be stored, and is then stored twice
  (`JobRows.StoppedWhileMerging`, `JobRows.ResetStoresTwice`). A reset is safe
  exactly for a job that is neither stored nor in flight, or that a run has just
  refused and no claim can overtake (`ResetSafety.ResetSafeExactly`).
- The log says of a refused upsert that it will be retried
  (`internal/writer/daemon.go:105`). The worker's late write can replace the
  queued row too, and then no retry ever comes (`JobRows.LateWriteLosesRetry`).
- The notes speak of four concurrent writers and `INSERT IGNORE`
  (`README.md:718`). One mutex serializes the merge runs, and the inserts are
  plain, so one repeated request key refuses its whole batch; a late window can
  produce one (`RequestLives.LateWindowRepeatsKey`), windows in order cannot
  (`WindowKeys.WindowKeysDistinct`).

Other things the proofs brought out: a request row misses the downlink bytes
that arrive in a later job (`Ledger.WrittenRowFinal`), the retry after a refused
upsert counts a connection's packets twice unless some sweep has dropped its
session in between (`ConnectionLives.RetryCountsTwice`), a session key registered
a second time takes the packets of its first life out of the table
(`TableSums.TableAddsUp`), and an empty capture file passed over while a later
one is queued is never queued (`Capture.QueuedIffOffered`).

## Model

| member | source | states |
|---|---|---|
| `Keys.SessionKeyInjective` | internal/parser/engine.go:354-355 | a session key decodes: equal texts mean the same interface, four-tuple, domain and second, even when the domain holds the separator |
| `Keys.RequestKeyInjective` | internal/parser/engine.go:394 | a request key decodes to its session key and number |
| `Keys.NatTextReadsBack` | internal/parser/engine.go:354-355 | a printed number is worth itself in base ten and has no leading zero |
| `Indexes.RegisterOverwritesNothing` | internal/parser/engine.go:239-250 | a packet that finds no session finds both index slots of its client flow free, so registering it overwrites no binding |
| `Indexes.NewKeyUnbound` | internal/parser/engine.go:354-377 | no existing binding names the session key a registration is about to use |
| `Indexes.StepKeepsInv` | internal/parser/engine.go:220-273 | one packet keeps the two indexes mirrored, every binding on a live session of that four-tuple, and every session under its own key |
| `Indexes.SweepKeepsInv` | internal/parser/engine.go:317-342 | a sweep at any epoch keeps the same invariant |
| `Indexes.RestoreEstablishesInv` | internal/parser/engine.go:79-88 | restoring any rows with distinct keys, also rows that share a four-tuple, establishes the invariant |
| `Indexes.ReachableInv` | internal/parser/engine.go:52-345 | every run of merges and sweeps from any restored rows keeps the invariant, also when the matcher is replaced between merges |
| `Indexes.RestoredSessions` | internal/parser/engine.go:82-87 | after a restore exactly the given rows are live, each under its key |
| `Indexes.SweepExact` | internal/parser/engine.go:317-341 | a sweep removes exactly the idle sessions, keeps the rest as they are, and removes exactly the bindings that name a removed session |
| `Indexes.FindIsScan` | internal/parser/engine.go:239-242 | when no two live sessions share an endpoint pair, the index lookup returns what a scan of all sessions by endpoint pair returns |
| `Indexes.ReachableFindIsScan` | internal/parser/engine.go:52-250 | in every run from rows with distinct endpoint pairs, with any replacements of the matcher, lookup is that scan, and the pairs stay distinct |
| `Engine.Session.ApplyPacket` | internal/parser/engine.go:382-421 | the in-place update of counters, of the list of logs and of the shared pending log is the function that the ledger lemmas are about, and a new log is made exactly for a positive uplink packet |
| `Engine.Session.CreditPending` | internal/parser/engine.go:416-419 | a positive downlink packet changes the last log only, through the pending reference |
| `Engine.Session.Receive` | internal/parser/engine.go:262-270 | a packet is applied as the pure step does; a FIN or RST, and nothing else, closes the session, at that packet's time, and the session was last seen at that packet |
| `Engine.Session.Expire` | internal/parser/engine.go:326-330 | closing an idle session keeps a close time that is already there, and else sets the last-seen epoch, or the first-seen one when that is zero |
| `Engine.ParserEngine.SetMatcher` | internal/parser/engine.go:52-57 | replacing the matcher leaves sessions, logs and indexes as they are |
| `Engine.ParserEngine.Store` | internal/parser/engine.go:374-377 | a session is stored under its key and bound in both indexes; no other object changes |
| `Engine.ParserEngine.RegisterSession` | internal/parser/engine.go:347-380 | registration allocates a new session and moves the state as the pure registration does |
| `Engine.ParserEngine.TouchSession` | internal/parser/engine.go:262-270 | a packet changes its own session and pending log; every other session and log object keeps its value, so pending requests never alias |
| `Engine.ParserEngine.StepPacket` | internal/parser/engine.go:223-271 | looking up or registering, then applying, moves the objects exactly as one pure step |
| `Engine.ParserEngine.MergeResult` | internal/parser/engine.go:210-292 | a merge moves the objects exactly as the pure merge, touches exactly the packets' sessions, and returns one new log per request opened, under its key, each the very object its live session holds and reads as that session's log |
| `Engine.ParserEngine.GetTouchedSessions` | internal/parser/engine.go:295-306 | the list holds exactly the live sessions of the given keys, as the very objects |
| `Engine.ParserEngine.RestoreSessions` | internal/parser/engine.go:79-89 | the given sessions become live and bound one after the other, as the pure restore says |
| `Engine.Session.FromRow` | internal/db/store.go:509-532 | a session loaded from a row is open, has the row's counters and texts, no logs, and both epochs zero |
| `Engine.ParserEngine.ExpireIdleSessions` | internal/parser/engine.go:309-345 | in whatever order the map is visited, the live objects end as the pure sweep, and the list holds exactly the swept sessions, each once and already closed |
| `Engine.ParserEngine.DropSession` | internal/parser/engine.go:326-341 | dropping one idle session removes its own bindings only |
| `Ledger.SplitExists` | internal/parser/engine.go:388-420 | every packet sequence splits into packets before the first request and exchanges, each a positive uplink packet with what follows up to the next one |
| `Ledger.LogsAreExchanges` | internal/parser/engine.go:392-419 | the logs of a session are its exchanges, one for one and in order, with the exchange's own uplink and downlink bytes, key and time |
| `Ledger.LedgerBalances` | internal/parser/engine.go:382-421 | counters and logs balance: total is uplink plus downlink, packets are counted, logs' uplinks sum to the uplink, downlink is the logs' downlinks plus bytes before the first request, one log per request, and a log's total is set exactly when its downlink is positive |
| `Ledger.LogsGrow` | internal/parser/engine.go:395-419 | later packets change at most the last log, and of it only the downlink and the total |
| `Ledger.WrittenRowFinal` | internal/writer/daemon.go:104-120 | a request row, inserted once when its job ends, is final exactly when it was not the last log or no downlink byte came before the next request; otherwise it is short by exactly those bytes |
| `Ledger.EveryLedgerBalances` | internal/parser/engine.go:52-421 | in every run from restored rows, with any replacements of the matcher, every live session balances against the packets applied to it, which are TCP packets of its own endpoint pair |
| `SessionTimes.OpensExactly` | internal/parser/engine.go:235-250 | a packet opens a session if and only if it is a TCP packet to or from port 443 that finds none, and a payload hint with a known vendor, or else the hint for the server's address, names it |
| `SessionTimes.EverySessionTimed` | internal/parser/engine.go:220-273 | in every run from restored rows every live session is a restored row, or was opened with zero counters by the first packet applied to it, under the client flow, key and hinted name of that packet; it is closed if and only if it was so at the start or a packet closed it, its close time is that of the last such packet, and it was last seen at its last packet |
| `SessionTimes.SweptWhenQuiet` | internal/parser/engine.go:309-345 | in every run a sweep drops a live session if and only if its last packet (or what it was restored with; its first-seen epoch when that is zero) is as old as the idle limit, and hands over its row closed at its last closing packet, else at a restored close time, else at that last epoch |
| `Windowing.StepWithout` | internal/parser/engine.go:235-263 | removing long-idle sessions first does not change what a packet of another connection does |
| `Windowing.MergeWindow` | internal/parser/engine.go:210-273 | merging a window into the swept state is merging it into the unswept state and removing the swept sessions afterwards |
| `Windowing.SweepWithout` | internal/parser/engine.go:317-341 | sweeping twice, at a later epoch the second time, removes and closes what the later sweep alone does |
| `Windowing.WindowsSoFar` | internal/writer/daemon.go:78-86 | after any number of windows the live state and the expired rows are those of the unswept merge of their packets and one sweep |
| `Windowing.WindowsAreUnswept` | internal/writer/daemon.go:78-86 | windows, each merged with its own hints and matcher and followed by an idle sweep, leave the same sessions, logs, expired rows and indexes as the unswept merge of their packets with one sweep at the end, and no expired key is live |
| `WholeStream.StepHints` | internal/parser/engine.go:239-250 | a step depends on hints and matcher only where its packet finds no session |
| `WholeStream.MarkStep` | internal/parser/engine.go:235-270 | one packet moves what a connection shows (its hint and packet count) only if it is on that connection: it is one more, the first, or not counted |
| `WholeStream.SameOutcomeIff` | internal/parser/engine.go:210-273 | two unswept merges of the same packets with different hints or matchers leave the same if and only if both tell the same to every packet that finds no session |
| `WholeStream.WindowingTransparent` | internal/writer/daemon.go:78-86 | windows leave what one merge of the whole stream with one hint map and one sweep leaves, if and only if every packet that finds no session is told the same by its window |
| `WindowHints.OwnHintsAgree` | internal/parser/engine.go:100-159 | the hints of each connection's first hinted window tell every such packet what its own window tells it, when no packet of a connection comes in a window before the one that holds its first hint |
| `WindowHints.OwnHintsTransparent` | internal/parser/engine.go:100-159 | so windows that bring only their own hints are one merge with those first hints, although a connection that continues in a later file has no hint there; without address hints, only then: a handshake that straddles a cut before its ClientHello makes the outcomes differ |
| `MergeOrder.LookupSymmetric` | internal/parser/engine.go:423-450 | with hints taken from uplink packets, both directions of a connection look up the same hint |
| `MergeOrder.StepTotals` | internal/parser/engine.go:382-421 | one packet is counted once, for its own connection, and only if that connection is tracked or hinted |
| `MergeOrder.MergeTotals` | internal/parser/engine.go:210-273 | a merge counts every packet of a tracked or hinted connection and none of any other, binds an untracked one to the key of its first packet, and last sees it at its last |
| `MergeOrder.WindowTotals` | internal/parser/engine.go:210-273 | after any list of windows with their own hints a connection has what it had plus every packet from the first window on that finds it tracked, or is hinted for it and holds a packet of it |
| `MergeOrder.MergeOrderIrrelevant` | internal/writer/daemon.go:172-177 | every permutation of windows with their own hints gives a connection the same uplink, downlink, packet and request totals if and only if it is tracked already, or every window that holds a packet of it is hinted for it, or none is |
| `MergeOrder.SweptTotals` | internal/writer/daemon.go:78-86 | jobs merged and swept in turn count for a connection what their windows count, when all sweeps lie within the idle limit of its packets |
| `MergeOrder.JobOrderIrrelevant` | internal/writer/daemon.go:78-86 | so the same if-and-only-if holds of jobs in any order, each with its own sweep |
| `ConnectionLives.LivesOrderIrrelevant` | internal/writer/daemon.go:78-86 | whatever the sweeps drop: summed over all its lives, an untracked connection comes to the same in every order of the jobs if and only if every job that holds it is hinted for it, or every hinted one drops it again in its own sweep |
| `MergeOrder.SweepTotals` | internal/parser/engine.go:317-341 | a sweep sets a connection's totals to nothing exactly when it drops its session |
| `ConnectionLives.RetryAtOnce` | internal/writer/daemon.go:82-112 | a job merged and swept whose upsert was refused, merged again at once, counts its packets of a connection a second time exactly when its own sweep has not dropped the session; otherwise the connection starts from zero, under the same key if the job had opened it, and only if the job is hinted for it |
| `ConnectionLives.RetryCountsTwice` | internal/writer/daemon.go:82-112 | the same after any jobs in between, with whatever matcher and clock: the session that has counted the packets counts them again if and only if no sweep has dropped it since |
| `ConnectionLives.DropsWhenIdle` | internal/parser/engine.go:317-324 | a job's own sweep drops a connection exactly when the job's last packet of it is as old as the idle limit |
| `RequestKeys.MergeKeysDistinct` | internal/parser/engine.go:393-410 | in every state with the invariant, the requests that one merge opens are pairwise different |
| `RequestKeys.MergeCollapsesNothing` | internal/parser/engine.go:276-279 | so the map keyed by request key holds as many logs as requests were opened |
| `RequestKeys.CountsMatchEmitted` | internal/parser/engine.go:393-410 | a merge raises each session's request count by exactly the number of requests it opens under that key, less the count of live sessions that a registration replaced |
| `RequestKeys.BoundNotReplaced` | internal/parser/engine.go:354-377 | a session that the index leads to is never replaced; in a state without shared connections that is every session |
| `RequestLives.KeysRepeatIff` | internal/parser/engine.go:354-394 | over any run from any rows, with any replacements of the matcher, two requests carry one key if and only if two lives of one session key (a restored one counts from its stored number, a registered one from zero) number a request alike |
| `RequestLives.RepeatsIffRegisteredTwice` | internal/parser/engine.go:354-394 | from the empty state: if and only if a session key was registered twice and opened a request each time |
| `RequestLives.RunKeysDistinct` | internal/parser/engine.go:354-394 | over a whole run in which no session key is used twice, all request keys differ |
| `WindowKeys.WindowsRegister` | internal/writer/daemon.go:78-86 | windows that are swept in order register, in order, exactly the session keys that the unswept merge of their packets registers |
| `WindowKeys.WindowKeysDistinct` | internal/db/store.go:140-154 | so, for ordered sweeps and small gaps, whatever the hints and matchers, no session key is registered twice and all request keys of all jobs differ |
| `RequestLives.LateWindowRepeatsKey` | internal/db/store.go:140-154 | a window that arrives after its session was swept registers the same session key again and emits the same request key, which the unique column refuses |
| `Store.UpsertShows` | internal/db/store.go:354-362 | a session sent to the upsert once or several times with one content ends up showing exactly that content |
| `Store.UpsertFrame` | internal/db/store.go:354-362 | a key that is not sent keeps its row |
| `Store.KeepsNames` | internal/db/store.go:340-362 | a key that was in the table keeps interface, flow, domain, vendor and first-seen time, whatever is sent |
| `Store.NamedByFirst` | internal/db/store.go:340-362 | a new key takes those five columns from the first row sent with it |
| `Store.ShowsLast` | internal/db/store.go:354-362 | counters, last-seen time, close time and status are those of the last row sent with the key, and the job is the one that sent it |
| `Store.UpsertConcat` | internal/db/store.go:324-332 | upserting batch after batch is upserting the whole list |
| `Store.SessionStore.UpsertSessions` | internal/db/store.go:319-334 | success upserts every row in order; failure means a refused statement, and exactly the batches before it are in |
| `Store.SessionStore.UpsertBatch` | internal/db/store.go:336-365 | one statement takes effect whole or not at all |
| `Store.SessionStore.UpsertOne` | internal/db/store.go:349-362 | column by column: a new key is named by the session, an old one keeps its interface, flow, domain, vendor and first-seen time; all other columns and the job are those of the object as it now is, and no other row changes |
| `Writer.UntouchedByMerge` | internal/parser/engine.go:252-263 | a live session that a merge did not touch was live before and is unchanged |
| `Writer.TouchedByPacket` | internal/parser/engine.go:252-263 | a touched session is live after the merge and a TCP packet of its connection was merged |
| `Writer.RestoreAgrees` | internal/db/store.go:509-532 | after loading the open rows, memory agrees with the table they came from |
| `Writer.UpsertAgrees` | internal/writer/daemon.go:80-104 | upserting rows that cover the touched and the swept sessions makes every live session's row show it and gives every swept session a closed row |
| `Writer.RowsCover` | internal/writer/daemon.go:80-88 | touched rows and expired rows together are such rows, although a session may stand in both lists |
| `Writer.WriterDaemon.MergeAndSweep` | internal/writer/daemon.go:76-88 | merge, collect, sweep at the last packet's epoch or the wall clock, and append |
| `Writer.WriterDaemon.ProcessResult` | internal/writer/daemon.go:67-112 | memory moves by merge and by a sweep at the last packet's epoch, or at the wall clock when there is none, whether or not the upsert succeeds; the table has taken the rows of touched and swept sessions, all of them or those of the statements before a refused one; if it succeeds, agreement between table and memory carries over and every session just swept has a closed row; it succeeds unless a statement is refused |
| `Writer.JobWritten` | internal/writer/daemon.go:80-112 | one job, accepted or refused: outside the keys whose last row did not reach the table, the table shows every live session, a closed row for every session ever swept, and no other new rows |
| `Writer.WriterDaemon.Run` | internal/writer/daemon.go:48-65 | the loop goes on after a refused job, and the matcher may be replaced before each; after any number of jobs memory is what all their merges and sweeps make of it, and the table is written through in that sense; an old row keeps the columns that name it, a new one is named by the first batch that sent its key, and its job is the last one that sent it |
| `Writer.TableShowsStream` | internal/writer/daemon.go:48-112 | over capture windows a table written from empty shows exactly the sessions of the unswept merge of all packets, closed if idle at the last sweep, outside those keys |
| `TableNames.RowsNameStream` | internal/db/store.go:340-362 | over capture windows every row of a table written from empty, refused statements or not, has the interface, flow, domain, vendor and first-seen time of the session of its key in the unswept merge of all packets |
| `TableNames.RowsNameFirstLife` | internal/db/store.go:340-362 | when all jobs are accepted, whatever the windows, a row is named by the first life of its key, as the first job that knows the key leaves it |
| `TableSums.TableAddsUp` | internal/db/store.go:354-362 | when all jobs are accepted, the rows of the table and the lives whose row a later life of the same key took over add up to every counted packet; the rows alone do if and only if no session key is registered twice |
| `TableSums.RowShowsAll` | internal/db/store.go:354-362 | one row shows all packets ever counted under its key if and only if that key was registered once |
| `Sni.SkipHeader` | internal/parser/engine.go:520-569 | the fixed and length-prefixed fields are skipped without reading outside the payload, to the extension list or to an early return |
| `Sni.HeaderLayout` | internal/parser/engine.go:519-569 | any bytes are read exactly when they are a handshake record with a ClientHello whose fields, at their places, reach up to the extension list, and the list ends where announced or where the payload ends; all other bytes have the empty answer |
| `Sni.ExtractSNI` | internal/parser/engine.go:519-591 | the loop ends, never reads outside the payload, and returns the answer of the declarative reader |
| `Sni.AnswerIsSlice` | internal/parser/engine.go:572-583 | a non-empty answer is a contiguous slice of the data of the first type-0 extension, five bytes in |
| `Sni.FirstExtensionDecides` | internal/parser/engine.go:571-591 | the converse: in any bytes the first complete type-0 extension decides the answer, the name whose length stands three bytes into it, or the empty one when it is too short |
| `Sni.AnswerStable` | internal/parser/engine.go:566-590 | appending bytes never changes a non-empty answer |
| `Sni.AnswerOfPrefix` | internal/parser/engine.go:566-583 | cutting a payload keeps the answer exactly when the extension that holds it is kept whole |
| `Sni.AnswerEndsThere` | internal/parser/engine.go:571-583 | in an encoded ClientHello that extension ends where the encoding of the extensions after it starts |
| `Sni.ReadsFirstServerName` | internal/parser/engine.go:571-587 | for every well-formed ClientHello record the answer is what its first type-0 extension holds |
| `Sni.SniRoundTrip` | internal/parser/engine.go:519-591 | for every session id, ciphers, compression list and other extensions, the answer for the encoding is exactly the host name, and a truncated record gives it exactly when no more than the encoded extensions after it are cut off |
| `Sni.NoAnswerWithoutServerName` | internal/parser/engine.go:571-590 | a well-formed ClientHello without a server_name extension gives the empty answer |
| `Pipeline.StepKeepsInv` | internal/writer/daemon.go:67-330 | every single action keeps: at most one place per job, no claimable row for a job in flight or stored, the mutex, and a recorded store for a run past its upsert; what each action writes into the row is `JobStatus.RowTrace` |
| `Pipeline.ReachableInv` | internal/writer/daemon.go:67-330 | every interleaving of workers, writer, backfill and restarts keeps that invariant |
| `Pipeline.OneResultInFlight` | internal/writer/daemon.go:208-272 | in every interleaving a job has at most one parse result being made, carried or merged, and none once it is stored |
| `Pipeline.StoredAtMostOnce` | internal/writer/daemon.go:67-141 | in every interleaving a job has at most one merge run whose upsert succeeds, with status writes lost and restarts at any moment |
| `Pipeline.MergeRunsExclude` | internal/writer/daemon.go:68-69 | the writer and the backfill loop are never both inside a merge run |
| `Pipeline.StoredRowWrites` | internal/writer/daemon.go:268-271 | once a job is stored its row changes only by a late parsed_ready or by the end of its merge run, and is never claimable |
| `JobStatus.StepWrites` | internal/writer/daemon.go:104-316 | a row changes only by a status write of its job and then reads, in both columns, what that write says: after a written parse error of worker or backfill failed and failed, after the end of a merge run merged and merged, and so on |
| `JobStatus.RowTrace` | internal/writer/daemon.go:104-316 | in every interleaving every row is the one of the start or what the last status write of its job wrote, with both columns written out for each write |
| `JobStatus.MergedMeansStored` | internal/writer/daemon.go:132-141 | a row that reads merged in either column is of a stored job, or read so from the start |
| `JobStatus.FailedMeansParse` | internal/writer/daemon.go:245-316 | a row that reads failed in either column reads so in both, after a failed parse of its job, which was not stored then; or it read so from the start |
| `JobStatus.FlightStep` | internal/writer/daemon.go:67-330 | in every reachable state a job is in flight after an action if and only if the action begins its flight, or it was in flight and the action is none of those that end one: a failed parse, a cancelled send, a successful upsert, the requeue, a restart |
| `JobStatus.ChannelsBounded` | cmd/monitor/main.go:106-107 | in every interleaving there are at most 1000 tasks and 500 results, and a send waits exactly when its channel is full |
| `Pipeline.MergedOverwritten` | internal/writer/daemon.go:258-271 | a run in which the late parsed_ready write overwrites merged, and the stored job keeps that status |
| `JobRows.MergedSurvives` | internal/writer/daemon.go:132-141 | in every reachable state a stored job's row that reads merged does so in every continuation if and only if no worker stands before its late write |
| `JobRows.RequeuedSurvives` | internal/writer/daemon.go:104-111 | a row put back to queued reads so until the backfill claims it, in every continuation, if and only if no worker stands before its late write |
| `JobRows.LateWriteLosesRetry` | internal/writer/daemon.go:104-111 | when it does, that write ends the promised retry: in no continuation is the job claimed, stored or its row changed |
| `JobRows.RetryLost` | internal/writer/daemon.go:104-271 | a run from the start in which a refused job is queued again while its worker still stands before the late write |
| `Pipeline.TaggedTaskStoredTwice` | internal/writer/daemon.go:235-241 | why the result needs tasks without a job id: a task sent twice under one id is stored twice |
| `JobRows.StoppedWhileMerging` | internal/writer/daemon.go:104-135 | a run from the start in which a restart between the upsert and the final status write leaves a stored job reading merging |
| `JobRows.ResetKeepsInv` | README.md:717 | resetting the row of a job that is neither in flight nor stored keeps the whole invariant, so such resets may be repeated |
| `JobRows.ResetSafeIff` | README.md:717 | in every reachable state, resetting the row of a job that is not in flight keeps every job stored at most once in every continuation if and only if the job is not stored |
| `ResetSafety.Finish` | internal/writer/daemon.go:67-141 | a merge run can always end, at the latest with a refused upsert, when all its status writes are lost |
| `ResetSafety.ResetSafeExactly` | README.md:717 | in every reachable state, for any job: a reset keeps every job stored at most once in every continuation if and only if the job is not stored and is not in flight, except in the hands of a run that has just refused it and that no claim can overtake |
| `JobRows.ResetStoresTwice` | README.md:717 | led to from the start: the stuck row of a stored job, reset to queued, is claimed and stored again |
| `FanOut.Cut` | internal/db/store.go:375-383 | the batches concatenate to the rows in order, have 1000 rows each except the last, and are as few as possible |
| `FanOut.StepKeepsInv` | internal/db/store.go:388-394 | every action keeps the slot count, the outcomes in the channel and the rows in the table exact |
| `FanOut.NeverMoreThanFour` | internal/db/store.go:386-399 | in every schedule at most four goroutines hold a slot, every answered goroutine can send at once, and all have given their slots back when the channel is closed |
| `FanOut.EverySchedule` | internal/db/store.go:386-399 | every schedule of n batches ends after exactly 4n + 6 actions with the close, and never gets stuck before |
| `FanOut.CallerTold` | internal/db/store.go:400-405 | nil is returned exactly when every batch succeeded, and then every row is in once; otherwise some batch's error is returned and exactly the successful batches are in |
| `FanOut.OutcomesAreAnswers` | internal/db/store.go:388-393 | in a closed schedule every batch was sent, and its outcome is the one answer of its statement |
| `FanOut.AnswerIs` | internal/db/store.go:400-405 | the channel yields its first error, or nil when it holds none |
| `Capture.Daemon.EnqueueCompleted` | internal/capture/daemon.go:133-186 | the loop with its cursor and non-blocking send moves the cursor and the queue as the specification function, and adds exactly the listed names that the scan reaches |
| `Capture.QueuedExactly` | internal/capture/daemon.go:133-186 | a listed name is added if and only if it is readable, not empty, beyond the cursor and the start mark, not the newest unless everything is flushed, and neither it nor an earlier such file found the channel full; so without a flush the newest file is never added, and with room everywhere all others that qualify are |
| `Capture.OffersExactly` | internal/capture/daemon.go:139-166 | what a scan offers: every listed readable file with content, the newest only on a flush |
| `Capture.QueuedIncreasing` | internal/capture/daemon.go:154-186 | over any scans the queued names are strictly increasing: no file twice, none out of order |
| `Capture.PassedIsQueued` | internal/capture/daemon.go:154-180 | a name that one scan's cursor passes is queued by it exactly when it was listed, finished and not empty |
| `Capture.DelayedNotDropped` | internal/capture/daemon.go:177-185 | a full channel never drops an eligible file: it is queued or the cursor stays before it, and with room everywhere it is queued |
| `Capture.QueuedIffOffered` | internal/capture/daemon.go:150-186 | over any scans a passed name is in the queue exactly when the scan that passed it was offered it; an empty file passed over then is lost for good |
| `Capture.NothingLost` | internal/capture/daemon.go:133-186 | if a file is there with content in every scan that offers a later one, being at or below the cursor means having been queued |
| `Order.LessIff` | internal/api/server.go:1253-1257 | strings are compared by position: a proper prefix comes first, and otherwise the first differing character decides |
| `Users.SameKeyIff` | internal/api/server.go:1205-1217 | when two rows count for one user, including a user whose name reads like the key of an address |
| `Users.TrimOf` | internal/api/server.go:1212-1213 | trimming takes off white space at both ends and nothing else |
| `Users.PiecesOf` | internal/api/server.go:1231-1236 | splitting an address list at commas is undone by joining, and no piece holds a comma |
| `Users.FirstIPOf` | internal/api/server.go:1210-1215 | the key of an anonymous row uses the trimmed first address, or the whole text when it has no comma or starts with one |
| `Users.CollectIPs` | internal/api/server.go:1230-1236 | the addresses added are exactly the trimmed, non-blank pieces of the list |
| `Users.ExtendAgg` | internal/api/server.go:1230-1258 | the loop body adds one row to a group |
| `Users.ExtendAggregates` | internal/api/server.go:1230-1258 | one more row keeps the aggregate exact: counts, address and vendor unions, least non-empty first-seen, greatest last-seen, department |
| `Users.Aggregate` | internal/api/server.go:1202-1259 | after the pass every user's aggregate is exact for the rows of that user, and users stand in order of first appearance |
| `Users.UserTotals` | internal/api/server.go:1202-1293 | the list behind the view has one exact row per user, in cost-descending stable order of first appearance |
| `UserColumns.RankedByCost` | internal/api/server.go:1289-1293 | both lists of users fall in cost, summed over each one's rows, with equal costs in the order of the list of users |
| `UserColumns.ListedByFirstRow` | internal/api/server.go:1218-1228 | that list has each user once, in the order of the users' first rows |
| `UserColumns.ViewColumns` | internal/api/server.go:1220-1287 | a row of the view, column by column, over the detail rows alone: the first row's user, the last department given, all addresses and vendors, the nine sums, the least non-empty first-seen and the greatest last-seen time |
| `Users.UsersConserve` | internal/api/server.go:1241-1250 | every column's total over the users is its total over the detail rows |
| `Users.TotalsConserved` | internal/api/server.go:1261-1293 | the same for the ranked view, in which every detail row belongs to exactly one user |
| `Users.Gather` | internal/api/server.go:938-969 | each group of the export holds its user's rows in original order |
| `Users.ExportUserTotal` | internal/api/server.go:928-1002 | the body is the groups in rank order, each group's rows together |
| `UserColumns.LineColumns` | internal/api/server.go:944-1001 | a line of the export stands beside one of the user's rows and shows the user of the first one (N/A when empty), the last department given and all addresses |
| `Users.BodyPermutes` | internal/api/server.go:981-1002 | the exported rows are a permutation of the detail rows |
| `Users.UserTogether` | internal/api/server.go:981-1002 | each user's rows are contiguous, in original order, and nowhere else |
| `Users.SameRanking` | internal/api/server.go:971-974 | for the same detail list the export and the view rank users alike |
| `Rank.SortRanks` | internal/api/server.go:1290-1293 | the sort is a permutation, falls in cost and keeps the order of equal costs |
| `Rank.RankUnique` | internal/api/server.go:971-974 | there is only one such order |
| `Tokens.EnrichUsageMetrics` | internal/api/server.go:1346-1410 | the three price branches are one form: truncated products of bytes and rates, priced per token |
| `Tokens.EstimateShows` | internal/api/server.go:1346-1410 | which rows are the proxy's own, and what every column of the estimate is on each branch, from bytes, rates and prices |
| `Tokens.TruncationBound` | internal/db/store.go:608-617 | tokens of n sessions' summed bytes exceed the sum of per-session tokens by at least 0 and at most n - 1 |
| `Tokens.BoundReached` | internal/api/server.go:1371-1372 | for every n there are sessions and a rate at which the excess is n - 1 |
| `Tokens.SummaryGap` | internal/db/store.go:608-617 | a summary row exceeds its sessions by at most n - 1 tokens on each side, and by at most the price of n - 1 tokens of each kind, cache reads included |
| `Tokens.UncachedGap` | internal/api/server.go:1370-1392 | on the branches without a cache the cost gap is between 0 and n - 1 times the sum of the two prices per token |
| `Csv.FieldReadsBack` | internal/api/server.go:1009-1014 | a printed field, quoted or not, reads back exactly before any separator |
| `Csv.QuotedOnDemand` | internal/api/server.go:1009-1014 | a field is quoted exactly when it holds a comma, a quote or a line feed |
| `Csv.NumbersNeedNoQuotes` | internal/api/server.go:753-761 | counters printed without quoting print as the quoting function would print them |
| `Csv.CsvRoundTrip` | internal/api/server.go:753-761 | any list of non-empty records reads back exactly with the rules of section 2 of RFC 4180 and line-feed record ends |
| `Paging.SlicePage` | internal/api/server.go:1295-1312 | the page cut in memory is in range and is the clamped page |
| `Paging.MemoryPageShows` | internal/api/server.go:1295-1312 | that page tells the number of rows and pages, at least one, and shows the asked page or the last one: the rows at its place, in full or up to the end |
| `Paging.QueryPageShows` | internal/db/store.go:548-590 | the same for a page read from a table, except that an empty table has no page and answers without items |
| `Paging.PageSeen` | static/app.js:268-294 | for each kind of endpoint the client sees page p as rows (p-1)*size up to p*size, and the right number of pages, at least one |
| `Paging.FetchAllPagedRows` | static/app.js:1006-1019 | the loop ends and returns the list exactly once in order, also the empty list and whatever page size is asked for |
| `Paging.PastTheEnd` | internal/db/store.go:553-557 | a page number past the end shows the last page, which is never empty |

## Left out

- Packet capture and decoding, domain detection in plain payloads, the building of DNS hints, tcpdump and iftop processes: foreign calls; their results are inputs.
- The target matcher (`internal/parser/matcher.go`): last exact rule, else first wildcard; it would only add easy members, so it is the function `vendorOf` of the environment.
- The list of recent QUIC observations and the transport events a UDP packet yields: true but easy; UDP packets change no session.
- `UpdatedAt`, `CaptureJobID` in memory, and the user, host and department columns that the writer fills from the address map before storing: they depend on the clock and on a lookup table and feed back into nothing modelled. The upsert therefore leaves those three columns out.
- Integer width: byte and packet counters are unbounded here and 64-bit in the program.
- Floating point: rounding of epochs, rates and costs; the statements are about exact reals.
- SQL text, filters, LIKE search and date ranges; Redis; the summary caches. A cached list is the same list.
- The order in which Go visits a map: `ExpireIdleSessions` is proved for every order, and the other lists are described as sets of objects.
- One merge with its upsert is one action in `Pipeline`, since the mutex is held throughout; `Writer` looks inside it.
- Liveness of jobs: a job can stay in `parsing`, `merging` or `parsed_ready` for ever.
- A second process over the same tables, and hand edits of job rows other than the reset of a stuck row.
- The start-up call that queues existing files (`SeedExisting`), which nothing calls, and the removal of processed files.
- Channel type, price list selection and the other descriptive columns of a usage row.
- The rendering of numbers with a fraction in CSV lines, and the text of the joined address lists.
- Configuration loading, HTTP routing, LDAP, XLSX reading, shell scripts and the rest of the browser code.
- Windowing.WindowsAreUnswept: asks for windows whose sweep epoch is positive and no later than the next window's packets; an empty capture file sweeps at the wall clock and may break that, so it is only covered when its clock fits in. It starts from an empty tracker, not from restored rows, and so do WindowKeys.WindowKeysDistinct, Writer.TableShowsStream and TableSums.TableAddsUp.
- Sni.SniRoundTrip: is about one ClientHello in one record, as the reader takes the payload of one packet and does not reassemble.
- Users.Aggregate: groups are values in a map rather than shared objects; each is reachable only through that map.
- Engine.ParserEngine.MergeResult: leaves out the transport events, the recent QUIC observations and the packet count of the returned result; the first two concern UDP packets only.
- Store.SessionStore.UpsertOne: leaves out `updated_at` and the user, host and department columns with their rule that a new empty value keeps the old one.
- Writer.WriterDaemon.MergeAndSweep: leaves out the filling of the user columns from the address map.
- Writer.WriterDaemon.ProcessResult: leaves out the status writes, which `Pipeline` has, and the inserts of logs and events, which `FanOut` has.
- MergeOrder.JobOrderIrrelevant: compares the totals of the one live session, for jobs whose sweeps lie within the idle limit of the connection's packets; where a sweep drops the connection, `ConnectionLives.LivesOrderIrrelevant` compares the totals over all its lives, for connections not tracked before the jobs.
- The address hints, built once at start-up, are fixed for a run; the matcher may be replaced between merges, which is the only time its lock allows.
- Tokens.EnrichUsageMetrics: leaves out the channel type and the descriptive price columns.
- Users.ExportUserTotal: gives each line its group's addresses as a set; sorting and joining them is not described.
- Paging.FetchAllPagedRows: is over a row list that does not change during the loop, and not about failed requests.
