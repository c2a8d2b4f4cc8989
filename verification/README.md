# Verification of the dashboard's stateful backend components

This project models the stateful core of a dashboard backend for coding agents and proves what the code is for. Each
module follows one source file. Code that changes state is modelled by methods with loops, arrays of rows or class
fields; every such method is tied to a specification function, and the properties below are proved about those
functions, over all inputs, all runs or all interleavings.

A specification function is a mirror of its method, so each has laws of its own, said of the rows, fields, files and
queues that a user of the operation sees and not of that function's body. Besides those in the module itself they are in
`HistoryRequests`, `ParserLines`, `ConnectorSteps`, `JsonTexts`, `DiscardRules`, `GraphRows`, `RunRows`, `TimelineRows`,
`RegistrySteps`, `TextParts`, `TimingRows`, `UsageRules` and `PreviewTexts`.

| file | what it models |
|---|---|
| `SessionHistory.dfy`, `HistoryRequests.dfy` | reading a huge append-only transcript backwards, page by page, through growing byte windows and byte cursors |
| `SessionParser.dfy`, `ParserLines.dfy` | the transcript line parser that attaches tool results to earlier tool calls |
| `ReplayJournal.dfy` | the crash-safe journal of accepted remote inputs, as single disk steps; the machine may crash and a process may be killed between any two, and several processes may have the journal open |
| `MachineConnector.dfy`, `ConnectorSteps.dfy` | the remote control connection: its promise chain, bounds, revocation fences, tombstones and client owners, on top of the journal |
| `JsonScanner.dfy`, `JsonTexts.dfy` | the hand-written scanner for repeated names in JSON text |
| `SessionDiscard.dfy`, `DiscardRules.dfy` | cutting a session file at a message |
| `FamilyGraph.dfy`, `GraphRows.dfy`, `FamilyLimits.dfy` | assembling the graph of a family of forked sessions; the limit on its nodes and the graph a reader gets |
| `LinearRuns.dfy`, `RunRows.dfy` | folding linear runs of that graph, and grouping records into turns |
| `Timeline.dfy`, `TimelineRows.dfy` | the compacting timeline of a live session |
| `Registry.dfy`, `RegistrySteps.dfy`, `RegistryRuns.dfy` | the live session registry and its runs: cursors, resync, leases, generations, queued commands, exclusive operations |
| `TextEncoding.dfy`, `TextParts.dfy` | how bytes of a file become text: UTF-8 with a replacement character for each part that is no character |
| `LineFeed.dfy`, `GoalTracker.dfy` | following growing text by lines; the newest goal of a session file |
| `TimingLedger.dfy`, `TimingRows.dfy`, `TimingRuns.dfy`, `Sums.dfy` | the timing ledger: tail reading, day buckets, merged reports, percentiles; and its runs over growing files |
| `UsageLedger.dfy`, `UsageRules.dfy`, `UsageWrites.dfy` | the usage ledger: recording, month files, grouped reports, the versioned report cache; and overlapping writes |
| `MachinePreview.dfy`, `PreviewTexts.dfy` | the bounded preview: UTF-8 and JSON byte budgets and the trimming loop |

`Wrappers.dfy` holds the shared option and result types.

Where a promised property does not hold of the code for every input, the condition under which it holds is proved to be
exact (an if and only if), and a concrete input that breaks it is given:

- Paging loses lines when a run of more tool results than the extra rows meets a page boundary at the head of the file,
  or when one page does not fit the largest window (`SessionHistory.WalkIsComplete`, `SessionHistory.PageGuardExactly`,
  `SessionHistory.GivesUpExactly`; inputs: `SessionHistory.LongToolRunLosesLines`, `SessionHistory.HugeRowGivesUp`). The
  comment at `backend/session-history.ts:133` calls the leftover bytes at the head a real first row; that is so only when
  the newline scan was not cut off.
- Messages of joined pages differ from the whole-file parse exactly when a call and its result are on different pages
  (`SessionParser.PagesJoin`; input: `SessionParser.CallAndResultApart`).
- Two updates without any identity can be shown at once, and one of them may have replaced another message's update
  (`Timeline.AnonymousExactly`; input: `Timeline.TwoAnonymousShown`).
- A usage record that is free and reports zero total tokens is lost by a reload (`UsageLedger.StorableExactly`,
  `UsageLedger.ReloadIsExact`; input: `UsageLedger.FreeMessageIsLost`).
- The record count of a usage report also counts the records that the report's time zone puts outside the month
  (`UsageLedger.RecordCountExactly`; input: `UsageLedger.CountsForeignDay`). In the ledger's own zone it is always exact
  (`UsageLedger.OwnZoneCountIsExact`).
- An append that fails while a newer write of the same message waits behind it takes the newer record out of memory,
  although its line is about to be in the file (`UsageWrites.RollbackExactly`; input:
  `UsageWrites.OvertakenFailureLosesRecord`).
- Following a file by refreshes gives the lines of a full scan exactly when no refresh but the last ends inside a
  character (`GoalTracker.IncrementalIsFullScan`; input: `GoalTracker.CutCharacterLosesGoal`).
- A tail window reports what a full scan does exactly under a condition on the lines before it and in it
  (`GoalTracker.TailWindowExactly`, `GoalTracker.TailLinesExactly`; input: `GoalTracker.UntimedGoalLosesTime`).
- The timing ledger computes its new offset from decoded text, which is right exactly when no replaced part of a
  character was shorter than its replacement (`TimingRuns.OffsetIsExact`; input: `TimingRuns.StrayByteIsReadTwice`). The
  lines of a file that shrank are counted on top of those read before (`TimingRuns.ShrunkFileCountsTwice`).
- A ledger that is refreshed again and again also counts the records that have expired since they were read, which a
  fresh ledger does not (`TimingRuns.AnyInterleavingIsOnePass`; input: `TimingRuns.ExpiredRecordStays`).
- A fork that goes back to a shared entry later than at its start shows that branch as a root
  (`FamilyGraph.LinksAsFiledExactly`; input: `FamilyGraph.BranchAtSharedEntryIsRoot`).
- Each node id of a family occurs once exactly when own entries of different sessions have different ids, which two forks
  of an entry that their parent has lost do not have (`FamilyGraph.AllIdsAreDistinct`; input:
  `FamilyGraph.DiscardedSharedEntryTwice`).
- The comment at `backend/live-sessions/session-tree.ts:561` says that keeping whole sessions leaves the edges intact;
  that is so exactly when each session kept hangs off an entry that is kept too (`FamilyLimits.EdgesIntactExactly`;
  input: `FamilyLimits.ForkIsShownAlone`).
- Two connections can both have a claim of one client admitted; the one that begins last takes it over
  (`MachineConnector.OwnerChangesExactly`; input: `MachineConnector.ClaimIsTakenOver`).

## Model

| member | source | states |
|---|---|---|
| SessionHistory.FindLastLineBoundary | backend/session-history.ts:59-69 | the chunked backward search finds the position just after the last newline of the whole file, or 0 |
| SessionHistory.RowsInRange | backend/session-history.ts:92-108 | the two loops over one window yield its newest complete rows, with offsets, and the bytes left over before the oldest newline looked at |
| SessionHistory.AlignPage | backend/session-history.ts:136-147 | a page is widened past tool results, never beyond the rows collected |
| SessionHistory.TryWindow | backend/session-history.ts:129-155 | one window serves a page exactly when it holds enough rows or starts at the head of the file; how many rows it then serves is `PageHoldsItsRows` |
| SessionHistory.ReadCompleteRowsEndingAt | backend/session-history.ts:116-162 | the growing-window loop ends with the first window that serves, or with the give-up page at the window ceiling |
| SessionHistory.PageHoldsItsRows | backend/session-history.ts:129-159 | a page that ends anywhere in any file has, unless it reaches the head, at least the rows asked for; it has at most eleven more, and those between its first row and its last but as many as asked for are tool results |
| SessionHistory.CursorPageHolds | backend/session-history.ts:168-200 | so has the page of every cursor, well formed or not |
| SessionHistory.OpensWithToolResult | backend/session-history.ts:136-147 | a page that opens with a tool result shows all rows that its window held |
| HistoryRequests.FirstWindowServes | backend/session-history.ts:116-159 | the windows are four times as large each time; a page is what the first of them serves that holds enough rows or reaches the head, and nothing when that of 256 MiB does not |
| HistoryRequests.RequestExactly | backend/session-history.ts:168-190 | no cursor and one at the end give the page that ends with the last line, a cursor inside the file the page that ends there; a malformed or used-up one, or one from a longer file, gives no rows and no next page |
| SessionHistory.ReadSessionHistoryPage | backend/session-history.ts:168-200 | clamped row count, missing file, bad or outdated cursor, the parsed page and the next cursor; unless the page reaches the head it has at least the rows asked for, and beyond that only tool results, at most eleven |
| SessionHistory.LinesBefore | backend/session-history.ts:92-108 | every row of the reference list starts at a line boundary, and the lines before it are the lines up to there |
| SessionHistory.ScanEndsLines | backend/session-history.ts:93-100 | the newlines found by the scan are the ends of the newest lines, newest first |
| SessionHistory.RowsAreNewest | backend/session-history.ts:101-104 | the rows of a window are exactly the newest lines of the file, newest first |
| SessionHistory.InnerWindow | backend/session-history.ts:130-135 | a window inside the file holds whole lines only |
| SessionHistory.HeadWindow | backend/session-history.ts:131-134 | a window that reaches the head holds every line, or the newest ones and one blob for all the rest |
| SessionHistory.GuardedPage | backend/session-history.ts:134-154 | under the page guard a page is a tail of the file's lines and its offset is where the rest ends |
| SessionHistory.UnguardedPage | backend/session-history.ts:134-159 | without the guard the walk ends and shows fewer rows than the file has lines |
| SessionHistory.WalkIsComplete | backend/session-history.ts:116-200 | following the cursor from any boundary to the head shows every complete line exactly once and in order, if and only if every page on the way meets the guard |
| SessionHistory.GivesUpExactly | backend/session-history.ts:156-161 | the reader gives up exactly when the largest window it may use holds fewer rows than a page and does not reach the head |
| SessionHistory.PageGuardExactly | backend/session-history.ts:116-159 | for every file: a page loses no lines exactly when the largest window inside the file holds a page of rows, or the whole file may be read and the tool results at the page boundary do not reach past the rows looked at |
| SessionHistory.OrdinaryFileWalks | backend/session-history.ts:71-159 | a file below the window ceiling whose tool result runs fit the extra rows is walked completely |
| SessionHistory.LongToolRunLosesLines | backend/session-history.ts:71-147 | thirteen tool results of any text that fit the first window, read one row a page: the walk does not show what the file holds |
| SessionHistory.HugeRowGivesUp | backend/session-history.ts:156-161 | a row that does not fit the largest window: the reader gives up and shows nothing of the file |
| SessionHistory.CursorRoundTrip | backend/session-history.ts:34-42 | decoding an encoded cursor gives back its offset and size |
| HistoryRequests.CursorExactly | backend/session-history.ts:34-42 | a cursor is read as two numbers exactly when it is the letter b and two strings of digits with colons before them, and then as their values |
| SessionHistory.MintedCursorIsStable | backend/session-history.ts:178-195 | reading at a minted cursor gives the same rows and the same older offset on the file and on every extension of it |
| SessionHistory.TraversalWalks | backend/session-history.ts:178-195 | following cursors through a file that keeps growing equals the walk of the file as first seen |
| SessionHistory.TraversalIsComplete | backend/session-history.ts:178-195 | such a traversal to the end shows every complete line of the first file once and in order, exactly when no page overruns |
| SessionHistory.PagedMessagesAreTheTranscript | backend/session-history.ts:190-195 | for results with ids, the messages of all pages joined are the whole-file parse exactly when no call and result are on different pages |
| SessionParser.SessionLineParser.Feed | backend/session-store.ts:93-162 | one line pushes or rewrites messages as the fold function says, tool results found newest first |
| SessionParser.SessionLineParser.FeedAssistant | backend/session-store.ts:106-135 | thoughts, then text, then tool calls, in the order of the parts |
| ParserLines.PlainLinesPush | backend/session-store.ts:93-113 | a user line and a plain assistant text push their text unless it is empty |
| ParserLines.PartsPush | backend/session-store.ts:106-135 | the parts of an assistant line push the thoughts that are not empty, then all text parts joined, then the tool calls with name, id and arguments, each in the order of the parts |
| ParserLines.BrokenPartsPush | backend/session-store.ts:106-135 | a part that cannot be inspected ends the line after the thoughts before it |
| ParserLines.ResultsGo | backend/session-store.ts:137-160 | a tool result is written into the newest call of its id and changes nothing else there, or is pushed as a message of its own when no call has that id |
| SessionParser.ParseSessionMessages | backend/session-store.ts:166-179 | the last messages of the whole-file parse, exactly as many as the limit says, all of them for a limit of zero |
| SessionParser.FedAllConcat | backend/session-store.ts:91-164 | feeding is a fold: feeding a joined list is feeding its parts in turn |
| SessionParser.HoldsAfterAll | backend/session-store.ts:117-143 | after some lines exactly the calls those lines offer can be matched by a later result |
| SessionParser.StraddleShortens | backend/session-store.ts:141-157 | a result whose call is in the first part makes the joined parse shorter than the separate ones |
| SessionParser.ParseSplits | backend/session-store.ts:91-164 | parsing splits over concatenation if and only if no call and result pair straddles the cut |
| SessionParser.PagesJoin | backend/session-store.ts:91-164 | the messages of any number of pages joined are the whole parse if and only if no pair straddles two pages |
| SessionParser.CallAndResultApart | backend/session-store.ts:117-157 | a call on one page and its result on the next: two messages from the pages, one from the whole file |
| SessionParser.IdentifiedPages | backend/session-store.ts:141-143 | when every result of the joined pages carries an id, so does every result of each page, so the theorem applies page by page |
| ReplayJournal.ReplayStore.Reach | backend/machine-input-replay.ts:72-107 | every disk state a call passes through is recorded, so a crash may leave any of them |
| ReplayJournal.ReplayStore.Stage | backend/machine-input-replay.ts:87-90 | the temporary file is written and synced, or the step fails with the old journal in place |
| ReplayJournal.ReplayStore.Publish | backend/machine-input-replay.ts:91-99 | rename and directory sync: on success only the new content can survive a crash, on failure the old or the new one |
| ReplayJournal.ReplayStore.Persist | backend/machine-input-replay.ts:77-107 | the whole try block with its cleanup, for every place a fault may strike |
| ReplayJournal.ReplayStore.Reserve | backend/machine-input-replay.ts:72-107 | granted exactly for a new id with room left, an open store, an unchanged journal and its own lock, and then the journal holds the id last; a duplicate exactly for an id seen before; a failed call poisons the store |
| ReplayJournal.ReplayStore.Close | backend/machine-input-replay.ts:108-114 | closing is idempotent and removes the lock file unless it was replaced by another one |
| ReplayJournal.OpenMachineInputReplay | backend/machine-input-replay.ts:48-71 | with no lock file there, a missing journal opens with no ids, and any other exactly when it is a list of distinct ids within the maximum, which are remembered; with a lock file nothing opens |
| ReplayJournal.MidCallRemembers | backend/machine-input-replay.ts:72-107 | at every point inside a call, whatever a crash leaves holds every id granted before |
| ReplayJournal.SeesEveryGrant | backend/machine-input-replay.ts:77-86 | a store that gets past the checks has seen every id granted so far, by whichever process |
| ReplayJournal.NextIsSafe | backend/machine-input-replay.ts:36-114 | every step of every process that has the journal open, crashes and kills in the middle of calls included, keeps the safety invariant |
| ReplayJournal.RunIsSafe | backend/machine-input-replay.ts:36-114 | the invariant holds all along every run |
| ReplayJournal.GrantedAtMostOnce | backend/machine-input-replay.ts:72-107 | over every run of opens, calls, failures, crashes, killed processes, removed locks and reopens, with any number of processes that have the journal open, no client and request is answered true twice |
| ReplayJournal.RunIsOpenable | backend/machine-input-replay.ts:54-71 | along every run whatever a crash can leave is a journal that can be opened |
| ReplayJournal.ReopenedAnswersDuplicate | backend/machine-input-replay.ts:36-76 | at any moment of any run, once the lock file is gone, the journal opens again, and the process answers every id granted before as a duplicate |
| ReplayJournal.GrantIsPossible | backend/machine-input-replay.ts:72-107 | an id that was not seen yet is granted by a call during which nothing fails |
| ReplayJournal.LockOutlivesProcess | backend/machine-input-replay.ts:36-52 | only closing removes the lock, and only its own; after a kill or a crash it stays, and while it does nobody opens |
| ReplayJournal.GrantedThenDuplicate | backend/machine-input-replay.ts:36-114 | a run from the empty disk: opened, an id granted, the process closed or killed with its lock removed, opened again, and the same id answered as a duplicate |
| ReplayJournal.GrantedSurvivesEveryCrash | backend/machine-input-replay.ts:88-103 | every content a crash can leave, between calls or inside one, holds every id granted so far by any process |
| ReplayJournal.KilledCallForgetsNothing | backend/machine-input-replay.ts:54-103 | after a process was killed inside a call, what the next open reads, and what a machine crash leaves before it, holds every id granted so far |
| ReplayJournal.ForeignChangeIsRefused | backend/machine-input-replay.ts:78-103 | a journal changed behind the store's back, or a lock that is no longer its own, is noticed before anything is granted, and the store is poisoned |
| ReplayJournal.OvertakenProcessIsRefused | backend/machine-input-replay.ts:78-103 | a process that another has overtaken, after its lock was removed, is refused for good the next time it asks, and leaves the journal alone |
| MachineConnector.Connector.PruneTombstones | backend/machine-connector.ts:83-88 | exactly the settled tombstones older than the limit are dropped, order kept |
| MachineConnector.Connector.FindSettled | backend/machine-connector.ts:307-318 | the search for the oldest settled tombstone |
| MachineConnector.Connector.Receive | backend/machine-connector.ts:294-358 | a control frame's refusals in order, the lease check before the journal, the eviction, the tombstone and the closure chained onto the tail |
| MachineConnector.Connector.RevokeClient | backend/machine-connector.ts:262-277 | a revocation fences the client at once and chains its cleanup |
| MachineConnector.Connector.Begin | backend/machine-connector.ts:322-340 | a closure whose predecessor has resolved runs up to its first await: it is dropped, refused, or started (exactly when is `BeginsExactly`), and a started claim makes this connection the client's owner |
| MachineConnector.BeginsExactly | backend/machine-connector.ts:322-340 | an operation starts exactly while its connection is ready, its client is not revoked and, for a claim or a release, its target matches; any other returns at once, and only a started input is handed over and only a started claim changes the owner |
| MachineConnector.ClosedConnectionStartsNothing | backend/machine-connector.ts:157-185 | after a connection has closed, no operation queued on it is started, no input is handed over and no client is taken, for every execution |
| MachineConnector.Connector.TimeOut | backend/machine-connector.ts:338-354 | the timer wins the race and the closure goes on to await the late operation |
| MachineConnector.Connector.Conclude | backend/machine-connector.ts:357-365 | what follows a closure: a place is free and the input's tombstone is settled |
| MachineConnector.Connector.Settle | backend/machine-connector.ts:343-354 | the operation settles, in time or late, and its closure returns |
| MachineConnector.Connector.FinishRelease | backend/machine-connector.ts:157-276 | after the awaited releases a revoked client belongs to no connection, unless its release failed, and a closed connection gives up exactly the clients it still owns |
| MachineConnector.Connector.OpenConnection | backend/machine-connector.ts:146-156 | a new connection starts with an empty queue and no clients |
| MachineConnector.Connector.CloseConnection | backend/machine-connector.ts:157-185 | closing stops new frames and lets the release of all clients wait for the chain; closing again does nothing |
| MachineConnector.Connector.ReleaseOwners | backend/machine-connector.ts:159 | the loop over the clients drops exactly the owners that are this connection |
| MachineConnector.MovesKeepsCount | backend/machine-connector.ts:297-365 | every step keeps the in-flight count equal to the control operations that have not resolved, at most sixteen |
| MachineConnector.MovesKeepsOrder | backend/machine-connector.ts:270-358 | every step keeps the closures in one line: each chained onto the one before it, and none begun before all earlier ones have resolved |
| MachineConnector.MovesKeepsAccount | backend/machine-connector.ts:300-337 | every step keeps each chained input granted by the journal, in one closure only, and not handed over while that waits |
| MachineConnector.MovesKeepsBuried | backend/machine-connector.ts:304-319 | every step keeps a pending tombstone for each unsettled input and the table within its maximum |
| MachineConnector.PendingTombstonesStay | backend/machine-connector.ts:83-88 | no step loses a pending tombstone but the one that resolves its closure |
| MachineConnector.KeptFacts | backend/machine-connector.ts:83-88 | pruning keeps pending tombstones and never adds one |
| MachineConnector.EvictedFacts | backend/machine-connector.ts:315-318 | eviction makes room and never takes a pending tombstone |
| ConnectorSteps.KeptExactly | backend/machine-connector.ts:83-88 | pruning keeps exactly the tombstones that are pending or no older than the limit, in their order |
| ConnectorSteps.EvictedExactly | backend/machine-connector.ts:315-318 | a full table loses its oldest settled tombstone and nothing else, and a table with room or without a settled one loses nothing |
| ConnectorSteps.AsksExactly | backend/machine-connector.ts:294-314 | the journal is asked exactly for inputs that meet no refusal: client not revoked, fewer than sixteen in flight, this connection its owner, a current lease, the key not heard of, and room in the table |
| ConnectorSteps.ReceivedExactly | backend/machine-connector.ts:294-358 | every answer to a control frame and what it leaves: the first refusal that applies, or one more closure at the end of the queue and, for an input, one more pending tombstone |
| ConnectorSteps.ConcludingSettles | backend/machine-connector.ts:357-365 | when the closure of an input resolves its tombstone is settled with that time, and no other one changes |
| ConnectorSteps.RevokesExactly | backend/machine-connector.ts:262-277 | a revocation fences its client and queues one cleanup behind everything that is queued |
| ConnectorSteps.ClosesExactly | backend/machine-connector.ts:157-185 | closing ends the connection and queues one release behind everything that is queued; closing again does nothing |
| ConnectorSteps.OwnerLostExactly | backend/machine-connector.ts:157-334 | a client leaves a connection when another one's claim of it begins, when its cleanup succeeds, when the closed connection has drained or when the process ends, and by no other step |
| ConnectorSteps.RevokedClientIsReleased | backend/machine-connector.ts:262-277 | over every execution: once the cleanup that a revocation queued is over, unless the release failed, the client does not belong to the connection and never will again |
| MachineConnector.ExecutionKeepsInvariant | backend/machine-connector.ts:144-365 | the invariants hold all along every execution, crashes and restarts included |
| MachineConnector.AtMostSixteenInFlight | backend/machine-connector.ts:297-321 | on every connection at most sixteen control operations are unresolved |
| MachineConnector.InputHandedAtMostOnce | backend/machine-connector.ts:300-337 | an input is handed to its session at most once, across reconnects, crashes and restarts, whatever other processes do with the journal |
| MachineConnector.RevokedClientStartsNothing | backend/machine-connector.ts:262-277 | after a revoke frame every closure of that client on the connection returns at once, queued before or not: nothing is handed over, and no owner changes |
| MachineConnector.OneOperationAtATime | backend/machine-connector.ts:270-358 | from the promise chain alone: while a closure is under way, a timed-out operation or a release included, all queued before it have resolved and none behind it has begun |
| MachineConnector.NextWaitsForSettling | backend/machine-connector.ts:349-358 | between two closures of a connection, of which the first started an operation, that very operation settled |
| MachineConnector.ClosedConnectionOwnsNothing | backend/machine-connector.ts:157-185 | once a closed connection has drained, no client belongs to it and none ever will |
| MachineConnector.OwnerChangesExactly | backend/machine-connector.ts:330-334 | a client goes to a connection exactly when its claim begins there |
| MachineConnector.ClaimIsTakenOver | backend/machine-connector.ts:296-334 | two claims of one client admitted on two connections: the second to begin takes the client over while the first is in progress |
| JsonScanner.Scanner.Space | backend/machine-connector.ts:24 | the shared index skips exactly the whitespace |
| JsonScanner.Scanner.String | backend/machine-connector.ts:25-32 | a string token is cut at its closing quote and decoded, or the scan fails |
| JsonScanner.Scanner.Value | backend/machine-connector.ts:33-51 | one value moves the index as the scanning function says, on every text |
| JsonScanner.Scanner.Members | backend/machine-connector.ts:36-44 | the loop over the members of an object |
| JsonScanner.Scanner.Elements | backend/machine-connector.ts:46-48 | the loop over the elements of an array |
| JsonScanner.NoDuplicateKeys | backend/machine-connector.ts:22-53 | the scanner ends on every text, and answers true only at its end |
| JsonScanner.ScansString | backend/machine-connector.ts:25-32 | the text of any JSON string, with any escapes, is scanned to its end and decoded to its characters |
| JsonScanner.ScansValue | backend/machine-connector.ts:33-51 | on a printed value the scanner stops at its end, or fails exactly when an object below repeats a name |
| JsonScanner.UniqueFromExactly | backend/machine-connector.ts:36-38 | growing a set of seen names rejects exactly the lists with a repeated name |
| JsonScanner.AnswersExactly | backend/machine-connector.ts:22-53 | on the text of any JSON value, with any legal whitespace and escapes, the answer is true exactly when no object at any depth repeats a decoded name (section 4 of RFC 8259) |
| JsonTexts.ParsedExactly | backend/machine-connector.ts:25-32 | a token is decoded exactly when it is the text of a JSON string, and to what its characters and escapes stand for (section 7 of RFC 8259) |
| JsonTexts.ReadingIsScanned | backend/machine-connector.ts:33-51 | on every text, the scanner passes a reading of a value, with any of the whitespace it skips, exactly when no object in it repeats a name |
| JsonTexts.ScannedIsReading | backend/machine-connector.ts:33-51 | whatever the scanner passes has such a reading, without a repeated name |
| JsonTexts.AnswersOnEveryText | backend/machine-connector.ts:22-53 | for every text, JSON or not, the answer is true exactly when the whole text reads as one value and whitespace in which no object repeats a decoded name |
| SessionDiscard.IndexEntries | backend/live-sessions/session-discard.ts:67-74 | the index by id, refused exactly when an id is empty or repeated |
| SessionDiscard.ChildrenOf | backend/live-sessions/session-discard.ts:110-116 | the children of each id, in file order |
| SessionDiscard.WalkActiveBranch | backend/live-sessions/session-discard.ts:84-95 | the walk from the last entry to the root, with the cycle, the invalid parent and the missing parent as errors |
| SessionDiscard.CollectDiscarded | backend/live-sessions/session-discard.ts:117-126 | the queue loop ends with exactly the ids reachable from the message |
| SessionDiscard.BuildRetained | backend/live-sessions/session-discard.ts:132-147 | the retained list: the message moved last, or its parent moved last, or the root refusal |
| SessionDiscard.PrepareRewrite | backend/live-sessions/session-discard.ts:56-165 | all checks in order and the staged plan, for a discard and for a withdrawal |
| DiscardRules.ActiveBranchExactly | backend/live-sessions/session-discard.ts:84-95 | there is an active branch exactly when parent links lead from the last entry to a root, and then it is these entries |
| DiscardRules.FirstUserExactly | backend/live-sessions/session-discard.ts:97-108 | the latest user message of a branch is the one with no other between it and the last entry |
| DiscardRules.SelectedExactly | backend/live-sessions/session-discard.ts:97-165 | for a message on the active branch of a sound file: a discard goes through exactly when some entry was reached from it; a withdrawal exactly when no user message comes later on the branch and the message is no root that other entries would outlive; each refusal says which of these it was |
| DiscardRules.UnselectedExactly | backend/live-sessions/session-discard.ts:56-108 | anything else is refused, by the first of the checks that fails |
| DiscardRules.WithoutKeepsOrder | backend/live-sessions/session-discard.ts:128-147 | what is left after taking entries out is in the order it had |
| DiscardRules.KeepsFileOrder | backend/live-sessions/session-discard.ts:128-165 | all entries kept but the one to resume from, which comes last, stay in the order of the file |
| SessionDiscard.SessionFile.Commit | backend/live-sessions/session-discard.ts:168-175 | the file is replaced only if it is still the one that was read |
| SessionDiscard.ClosureIsDescendants | backend/live-sessions/session-discard.ts:117-126 | a closed set grown from the root along child links is exactly the set of descendants |
| SessionDiscard.BranchIsChain | backend/live-sessions/session-discard.ts:84-95 | a walk that succeeds is a chain of parents from the last entry to a root |
| SessionDiscard.ChainIsBranch | backend/live-sessions/session-discard.ts:84-95 | every such chain is what the walk finds |
| SessionDiscard.BelowMeetsChain | backend/live-sessions/session-discard.ts:84-126 | whatever an entry of the active branch lies below is on the branch too, nearer the root |
| SessionDiscard.AncestorsStay | backend/live-sessions/session-discard.ts:84-132 | no entry between the message and the root is removed |
| SessionDiscard.WithoutFacts | backend/live-sessions/session-discard.ts:132 | filtering keeps exactly the entries with other ids, in order, and the count |
| SessionDiscard.RemovesExactlyTheDescendants | backend/live-sessions/session-discard.ts:117-148 | the rewrite removes exactly the entries reachable from the message; a discard keeps the message itself |
| SessionDiscard.NoRetainedOrphan | backend/live-sessions/session-discard.ts:117-148 | no retained entry has a removed parent |
| SessionDiscard.CountsBalance | backend/live-sessions/session-discard.ts:127-164 | entries before are entries after plus the removed ones, and the reported counts say so |
| SessionDiscard.ResumesOnTheCutBranch | backend/live-sessions/session-discard.ts:84-148 | the rewritten file is a session file again, and the walk from its last entry is the old branch cut at the message or at its parent |
| FamilyGraph.LastLeadingSharedIndex | backend/live-sessions/session-tree.ts:387-394 | the loop finds the end of the leading run of entries shared with the parent |
| FamilyGraph.PlainNodes | backend/live-sessions/session-tree.ts:498-514 | one node per own entry, linked to its parent entry |
| FamilyGraph.ForkPoint | backend/live-sessions/session-tree.ts:484-495 | where a session leaves its parent, and the parent's leaf |
| FamilyGraph.AssembleSession | backend/live-sessions/session-tree.ts:480-543 | the nodes one session adds, its first one hung off the fork anchor |
| FamilyGraph.CountChildren | backend/live-sessions/session-tree.ts:547-551 | the number of children of each node |
| FamilyGraph.Assemble | backend/live-sessions/session-tree.ts:480-558 | the whole graph with child counts, leaves, heads and anchors, and the first node of each session |
| FamilyGraph.SharedIsForkPoint | backend/live-sessions/session-tree.ts:387-394 | the shared index is `n` exactly when the first `n` entries are among the parent's and the next is not |
| GraphRows.SharedExactly | backend/live-sessions/session-tree.ts:387-394 | the shared entries are the leading ones that the parent has too, up to the first it has not; a session without a parent in the family shares none |
| GraphRows.NodeShows | backend/live-sessions/session-tree.ts:498-558 | every node is an own entry of a session with all its fields, linked to what the session hangs off or to the own entry it follows; it is a head exactly when it is the last entry of the newest session with its key, and a fork anchor exactly when some session shares its entries up to it |
| GraphRows.NodesInOrder | backend/live-sessions/session-tree.ts:480-543 | the nodes are the own entries session by session, each session's in the order of its file |
| GraphRows.FirstsExactly | backend/live-sessions/session-tree.ts:480-543 | what contraction must keep are the first own entries of the sessions |
| FamilyGraph.AllIdsAreDistinct | backend/live-sessions/session-tree.ts:480-543 | every node id occurs once exactly when own entries of different sessions have different ids |
| FamilyGraph.DiscardedSharedEntryTwice | backend/live-sessions/session-tree.ts:387-543 | two forks of an entry that their parent has lost since: both own it, and its id occurs twice |
| FamilyGraph.Owner | backend/live-sessions/session-tree.ts:480-543 | every entry is, by its id, an own entry of its session or of one of its ancestors |
| FamilyGraph.EveryEntryIsOneNode | backend/live-sessions/session-tree.ts:480-543 | every entry of every session is a node, and each id has one node exactly when own entries are fresh |
| FamilyGraph.ForkHangsOffLastShared | backend/live-sessions/session-tree.ts:480-543 | a fork's first own node hangs off the last entry of the leading run it shares with its parent, and that entry is a node |
| FamilyGraph.LinksAsFiledExactly | backend/live-sessions/session-tree.ts:498-521 | a session's nodes link as its file does exactly when its first own entry follows the entry the session hangs off and no later one goes back to a shared entry or follows one that is not in the file |
| FamilyGraph.BranchAtSharedEntryIsRoot | backend/live-sessions/session-tree.ts:498-501 | a fork of two shared entries with a later branch at the first of them: that branch is a root in the graph |
| FamilyGraph.FamilyIsForest | backend/live-sessions/session-tree.ts:480-558 | for files with forward links too: links lead to nodes of lower rank, so that the graph is a forest, exactly when the links that the files keep have no cycle |
| FamilyGraph.AcyclicFiles | backend/live-sessions/session-tree.ts:498-501 | files without cycles make a family without |
| FamilyGraph.RewriteDescends | backend/live-sessions/session-discard.ts:132-147 | a file written again with some of its entries, in any order, has no new cycle |
| FamilyGraph.MovedParentDescends | backend/live-sessions/session-discard.ts:135-141 | the file of a withdrawal, whose parent entry moved behind its other children, has no cycle although a link leads forward |
| FamilyGraph.CountsTheLinks | backend/live-sessions/session-tree.ts:547-551 | the counting loop counts the nodes that link to an id |
| FamilyGraph.CountsTheChildren | backend/live-sessions/session-tree.ts:547-551 | for distinct ids that is the number of children |
| FamilyGraph.GraphCountsChildren | backend/live-sessions/session-tree.ts:553-558 | every node's child count is the number of nodes linked to it, repeated ids or not, and leaf means none |
| FamilyGraph.KeptSurvives | backend/live-sessions/session-tree.ts:693-696 | a node kept by its id is in the contracted graph |
| FamilyLimits.CountNodes | backend/live-sessions/session-tree.ts:565 | the number of nodes of one session |
| FamilyLimits.DropOthers | backend/live-sessions/session-tree.ts:570 | the loop from the end takes out the nodes of the sessions not kept |
| FamilyLimits.LimitNodes | backend/live-sessions/session-tree.ts:560-573 | above the limit, whole sessions are kept from the front while they fit, the first whatever its size |
| FamilyLimits.LimitKeepsFront | backend/live-sessions/session-tree.ts:560-573 | what is shown is the nodes of the longest front of sessions that fits, all of them when all fit |
| FamilyLimits.EdgesIntactExactly | backend/live-sessions/session-tree.ts:560-571 | no link to a node of the graph leads out of what is shown exactly when each session kept hangs off an entry that is kept |
| FamilyLimits.ForkIsShownAlone | backend/live-sessions/session-tree.ts:560-571 | a fork in focus whose parent does not fit beside it is shown alone, and its first node links to an entry that is not shown |
| FamilyLimits.BuildFamilyGraph | backend/live-sessions/session-tree.ts:480-585 | the nodes under the limit, or their contraction in which the first node of every session survives, its runs expanded as asked |
| FamilyLimits.LimitedIsForest | backend/live-sessions/session-tree.ts:480-573 | the shown part of a forest of forks is a forest |
| FamilyLimits.FamilyKeepsAncestry | backend/live-sessions/session-tree.ts:480-585 | between nodes shown, ancestry in the collapsed graph is that in the graph under the limit, and that in the whole graph if each session shown hangs off an entry that is shown |
| LinearRuns.TurnSteps | backend/live-sessions/session-tree.ts:602-657 | the loop yields one turn per bucket of records, with its anchor, kind, role, title, request, reply, tools and count |
| LinearRuns.TurnToolsExactly | backend/live-sessions/session-tree.ts:606 | a turn lists every tool its records used, each once |
| LinearRuns.LastReplyIsLast | backend/live-sessions/session-tree.ts:605-608 | the reply a turn shows is the text of its last assistant record that has one |
| LinearRuns.TurnsPartition | backend/live-sessions/session-tree.ts:638-657 | the buckets hold the records in order, none is empty, every one but the first starts with its request or compaction, and none holds two |
| RunRows.TurnsBegin | backend/live-sessions/session-tree.ts:638-657 | the turns hold all records in their order, every turn but the first begins with a user's record or a compaction, and none holds two of them |
| LinearRuns.TurnShows | backend/live-sessions/session-tree.ts:602-636 | a turn is shown as the first user's record in it with that text as its request, else as its first record; its kind, role and title say whether tools were used and who answered |
| LinearRuns.TurnsAreUnique | backend/live-sessions/session-tree.ts:638-657 | only one partition into as many turns is like that |
| LinearRuns.TurnsCoverAll | backend/live-sessions/session-tree.ts:602-657 | the covered counts of the turns add up to the records |
| LinearRuns.ChildrenMap | backend/live-sessions/session-tree.ts:686-692 | the child lists hold every child once, under its parent |
| LinearRuns.TakeRun | backend/live-sessions/session-tree.ts:706-716 | the run followed from a node is the longest chain of single, non-structural, unvisited children |
| LinearRuns.FoldRun | backend/live-sessions/session-tree.ts:718-750 | the node a run becomes: its id, both ends, turn count, title, text span and the expanded steps |
| LinearRuns.NewFold | backend/live-sessions/session-tree.ts:718-750 | the new node describes exactly the run that was folded |
| LinearRuns.Visit | backend/live-sessions/session-tree.ts:701-762 | visiting a node shows or folds everything below it and keeps the contraction faithful so far |
| LinearRuns.VisitKids | backend/live-sessions/session-tree.ts:751-761 | the loops over children |
| LinearRuns.VisitRoots | backend/live-sessions/session-tree.ts:764-766 | every node without a parent in the graph is visited |
| LinearRuns.AddUnreached | backend/live-sessions/session-tree.ts:767 | nodes no root leads to are shown unchanged |
| LinearRuns.CollapseLinearRuns | backend/live-sessions/session-tree.ts:679-769 | the output is a contraction of the input, for a folding that exists; every folded run is expanded exactly when asked for, with as many turns as asked |
| LinearRuns.ContractionKeepsAncestry | backend/live-sessions/session-tree.ts:679-769 | for any forest and its collapsed form, a node shown in both is above another in the one exactly when it is in the other |
| LinearRuns.FoldChain | backend/live-sessions/session-tree.ts:718-750 | folding a run keeps the contraction faithful |
| LinearRuns.KeepChain | backend/live-sessions/session-tree.ts:752-755 | showing a short run keeps it faithful |
| LinearRuns.StructuralSurvives | backend/live-sessions/session-tree.ts:693-716 | every structural node, and every node with siblings, is in the output |
| RunRows.LinearExactly | backend/live-sessions/session-tree.ts:693-716 | a node can be folded exactly when it is no leaf, head, fork anchor, summary, compaction or collapsed node, has no label, was not asked for, has one child, and is itself the only child of a node of the graph |
| RunRows.LandmarksStay | backend/live-sessions/session-tree.ts:693-716 | every other node is shown, whatever is folded |
| LinearRuns.ParentsAreShown | backend/live-sessions/session-tree.ts:701-769 | every output node's parent is in the output, unless it was missing from the input |
| LinearRuns.ForestIsReached | backend/live-sessions/session-tree.ts:764-766 | in a forest every node is reached from a root |
| LinearRuns.AncestorsStayAbove | backend/live-sessions/session-tree.ts:701-762 | an ancestor of a surviving node that survives, or its fold, is still above it |
| LinearRuns.NothingNewIsAbove | backend/live-sessions/session-tree.ts:701-762 | nothing is above a surviving node that was not above it before |
| LinearRuns.AncestryIsUnchanged | backend/live-sessions/session-tree.ts:679-769 | between surviving nodes of a forest, being an ancestor is unchanged, both ways |
| LinearRuns.FoldedExactly | backend/live-sessions/session-tree.ts:718-719 | folded nodes are linear and in runs of at least three, and three linear nodes in a row are always folded together |
| LinearRuns.ShownOrFolded | backend/live-sessions/session-tree.ts:679-769 | every input node is shown exactly once under its own id or lies in exactly one folded run |
| Timeline.FindLast | backend/live-sessions/registry.ts:678-696 | the backward searches find the last row that fits |
| Timeline.FilterOut | backend/live-sessions/registry.ts:697-712 | filtering drops exactly the rows that fit |
| Timeline.SeenRecently | backend/live-sessions/registry.ts:699-704 | the same finished message is among the last three rows |
| Timeline.AppendTimelineEvent | backend/live-sessions/registry.ts:641-713 | one event added to the rows, then the cap: which rows it replaces, takes out or adds is stated by kind and identity in `TimelineRows` |
| TimelineRows.IdentityExactly | backend/live-sessions/registry.ts:641-676 | an event is identified by the first of its four id fields that is there, if that is a text, else a message by its role and a tool call by its tool |
| TimelineRows.UpdateIsShown | backend/live-sessions/registry.ts:678-696 | an update or a feature snapshot is always shown: in the place of the last row of its kind about the same message, tool call or feature, the only row that changes, or behind all rows if there is none |
| TimelineRows.MessageEndsExactly | backend/live-sessions/registry.ts:697-704 | a finished message takes out the updates of that message and no other row, and follows the rest unless one of the last three rows already is the same |
| TimelineRows.ToolEndsExactly | backend/live-sessions/registry.ts:705-710 | a finished tool call takes out its start and its updates and no other row, and follows the rest |
| TimelineRows.EntryIsStamped | backend/live-sessions/registry.ts:641-687 | the id of an entry is written into the last finished message, and nothing else changes |
| TimelineRows.OthersAreRows | backend/live-sessions/registry.ts:641-713 | dialogs, telemetry and starts of messages are no rows; every other event is one more row |
| TimelineRows.CapKeepsNewest | backend/live-sessions/registry.ts:305-307 | the cap keeps the newest rows, as many as fit |
| Timeline.AppendKeepsCompact | backend/live-sessions/registry.ts:641-713 | one event keeps at most one update per identity and one snapshot per feature |
| Timeline.RunKeepsCompact | backend/live-sessions/registry.ts:305-307 | any run of events keeps that, and the length never passes the cap |
| Timeline.EndedIsGone | backend/live-sessions/registry.ts:697-712 | right after an end event no update of that identity is shown, and no start of an ended tool call |
| Timeline.AnonymousExactly | backend/live-sessions/registry.ts:688-696 | exactly when an update without identity adds a second such row |
| Timeline.TwoAnonymousShown | backend/live-sessions/registry.ts:688-696 | an update without identity, one of a message, and one without again: two rows without identity, and the message's update is gone |
| Timeline.TranscriptGrows | backend/live-sessions/registry.ts:641-713 | compaction never touches the durable rows: an event appends itself, stamps the last finished message, or leaves them in order |
| Registry.Entry.Reconnect | backend/live-sessions/registry.ts:189-202 | a reconnection stales the cursor, awaits a snapshot and raises the generation |
| Registry.Entry.ClearLease | backend/live-sessions/registry.ts:855-860 | owner and claim are dropped together |
| Registry.Entry.TakeSnapshot | backend/live-sessions/registry.ts:226-277 | which snapshots are applied, and the whole new entry when one is |
| Registry.Entry.Install | backend/live-sessions/registry.ts:243-279 | cursor, rows, summary and the orphaned lease of an applied snapshot |
| Registry.Entry.TakeEvent | backend/live-sessions/registry.ts:293-310 | the next event is applied, a gap makes the entry wait, anything else is ignored |
| Registry.Entry.Project | backend/live-sessions/registry.ts:715-759 | status and lease changes of an event |
| Registry.Entry.MarkLost | backend/live-sessions/registry.ts:346-347 | a lost connection makes the entry wait for a snapshot |
| Registry.Entry.Own | backend/live-sessions/registry.ts:516-518 | a granted claim records its owner with the lease |
| Registry.LiveSessionRegistry.Connect | backend/live-sessions/registry.ts:187-219 | a known process keeps its entry, a new one gets a blank entry |
| Registry.LiveSessionRegistry.TakeSnapshot | backend/live-sessions/registry.ts:221-291 | identity checks, the applied entry, the release of an orphaned lease and the first resync |
| Registry.LiveSessionRegistry.TakeEvent | backend/live-sessions/registry.ts:293-310 | the event goes to the connection's own entry; a gap asks for a snapshot |
| Registry.LiveSessionRegistry.Disconnect | backend/live-sessions/registry.ts:338-352 | an entry without a summary is dropped, any other waits |
| Registry.LiveSessionRegistry.Detach | backend/live-sessions/registry.ts:354-363 | a detached entry leaves the registry without its lease |
| Registry.LiveSessionRegistry.Dispatch | backend/live-sessions/registry.ts:448-457 | a command is queued exactly when the session can take one |
| Registry.LiveSessionRegistry.Check | backend/live-sessions/registry.ts:476-487 | the check of entry, generation, session, owner, lease and expiry |
| Registry.LiveSessionRegistry.SendRemoteInput | backend/live-sessions/registry.ts:469-497 | an input is queued exactly when it is well formed and the check passes; what is queued, the text included, is what was given (`RegistrySteps.AcceptsInputExactly`) |
| Registry.LiveSessionRegistry.RunItem | backend/live-sessions/registry.ts:490-493 | a queued remote input is sent only if the check passes again |
| Registry.LiveSessionRegistry.HasRemoteLease | backend/live-sessions/registry.ts:460-466 | the preflight agrees with the check an input would meet |
| Registry.LiveSessionRegistry.StartClaim | backend/live-sessions/registry.ts:499-512 | a claimed session is refused to others and confirmed to its owner |
| Registry.LiveSessionRegistry.ClaimReply | backend/live-sessions/registry.ts:512-521 | a granted lease needs an id; a missing expiry is filled in |
| Registry.LiveSessionRegistry.RenewReply | backend/live-sessions/registry.ts:524-533 | only the expiry moves |
| Registry.LiveSessionRegistry.DropLease | backend/live-sessions/registry.ts:535-548 | an expired or released lease is dropped |
| Registry.LiveSessionRegistry.Enter | backend/live-sessions/registry.ts:430-435 | one exclusive operation per session is let in |
| Registry.LiveSessionRegistry.BeginOperation | backend/live-sessions/registry.ts:436-442 | after the wait the operation begins exactly when its entry is still registered, attached and has the same session |
| RegistrySteps.DispatchesExactly | backend/live-sessions/registry.ts:448-457 | a command is queued as it was given, behind all others, exactly when its session can take one |
| RegistrySteps.AcceptsInputExactly | backend/live-sessions/registry.ts:469-497 | a remote input is queued with its text and all it was accepted under exactly when its arguments are not blank and its client holds the lease, unexpired; the preflight says the same |
| RegistrySteps.RunsExactly | backend/live-sessions/registry.ts:490-493 | a queued command goes out on its entry's connection as it was given, a queued remote input only while its client still holds the lease; otherwise nothing is sent |
| RegistrySteps.SnapshotShows | backend/live-sessions/registry.ts:238-289 | what an entry shows after a snapshot it has taken, field by field: a switch of the session ends the lease, and a lease nobody here holds is not shown |
| RegistrySteps.SnapshotAsks | backend/live-sessions/registry.ts:273-291 | such a snapshot asks for the release of a lease that nobody here holds, and for one more snapshot when the entry was not attached before |
| RegistrySteps.SnapshotRefused | backend/live-sessions/registry.ts:221-236 | a snapshot that is not taken changes nothing; it is answered as one of the wrong connection exactly when the process is unknown or connected otherwise |
| RegistrySteps.EventShows | backend/live-sessions/registry.ts:715-759 | what an event that follows shows: status changes, and a lease freed, or extended while it has an owner |
| RegistrySteps.GapAsks | backend/live-sessions/registry.ts:293-304 | an event that does not follow is dropped, with one request for a snapshot unless one is awaited |
| RegistrySteps.ConnectsExactly | backend/live-sessions/registry.ts:187-219 | a known process keeps its entry and all it shows, under a new generation and until the next snapshot; a new one gets an entry that shows nothing |
| RegistrySteps.DisconnectsExactly | backend/live-sessions/registry.ts:338-352 | an entry that never showed anything goes with its connection, any other is shown as reconnecting |
| RegistrySteps.DetachesExactly | backend/live-sessions/registry.ts:354-363 | a detached entry leaves the registry, and its lease ends |
| RegistrySteps.LeaseStepsExactly | backend/live-sessions/registry.ts:512-548 | a granted claim is the client's with the lease it was granted, a renewal moves the expiry alone, a release ends owner and claim, of that entry only |
| RegistrySteps.OperationStepsExactly | backend/live-sessions/registry.ts:430-446 | an operation gets the session its id shows if no other has it, begins if its entry still shows that session, and leaves otherwise |
| RegistryRuns.StepMoves | backend/live-sessions/registry.ts:187-548 | every step changes at most the entries it names, as `Moved` says |
| RegistryRuns.StepNames | backend/live-sessions/registry.ts:354-363 | a detached entry object never comes back |
| RegistryRuns.RunIsFaithful | backend/live-sessions/registry.ts:187-310 | over every run each entry agrees with its history of accepted snapshots and events |
| RegistryRuns.TimelineIsSnapshotThenEvents | backend/live-sessions/registry.ts:187-310 | timeline and cursor are the last accepted snapshot folded with exactly the events numbered from just after it, across reconnects, restarts of the numbering and session switches |
| RegistryRuns.SnapshotIsTakenExactly | backend/live-sessions/registry.ts:226-236 | a snapshot is taken exactly when it switches the session, is the first on its connection, or is newer |
| RegistryRuns.ClaimsAreOwned | backend/live-sessions/registry.ts:273-283 | a session shown claimed with a lease id always has a recorded owner |
| RegistryRuns.GenerationGuards | backend/live-sessions/registry.ts:189-241 | while the generation stands still, so do the connection and the session |
| RegistryRuns.QueuedWasAdmitted | backend/live-sessions/registry.ts:488-497 | every queued remote input was accepted by an earlier step |
| RegistryRuns.RemoteInputIsSafe | backend/live-sessions/registry.ts:469-497 | what is sent is the text of an earlier remote input, whose session, client and lease the entry holds at both moments; in between it stayed on the same connection, generation and session |
| RegistryRuns.OperationStandsAlone | backend/live-sessions/registry.ts:430-497 | as long as an operation has a session, it stays the same one, no command is accepted for the session, and no remote input is sent to it, not even one queued before |
| LineFeed.FeedConcat | backend/live-sessions/session-goal-tracker.ts:127-134 | splitting text into lines does not depend on how it arrives |
| LineFeed.SplitAt | backend/live-sessions/session-goal-tracker.ts:127-134 | a text cut at a line start splits into the lines before and after it |
| LineFeed.SplitExactly | backend/live-sessions/session-goal-tracker.ts:127-134 | the split of a text is the one way to write it as lines without newlines, each followed by one, and a rest without |
| LineFeed.LastIndexOfNewline | backend/timing-ledger.ts:391-392 | the last newline of a text, or none |
| TextEncoding.DecodeEncode | backend/timing-ledger.ts:391-406 | decoding encoded text gives it back, and the encoded form is well formed and as long as computed (section 3.9 of the Unicode Standard) |
| TextParts.EncodedExactly | backend/timing-ledger.ts:391-406 | the bytes of a code point carry its bits, six in every byte but the first (section 3 of RFC 3629) |
| TextParts.PartExactly | backend/live-sessions/session-goal-tracker.ts:74-91 | the part of an ill-formed sequence that is replaced at once is the longest that begins a character, or a single byte where nothing does (section 3.9 of the Unicode Standard) |
| TextEncoding.DecodeAtNewline | backend/live-sessions/session-goal-tracker.ts:74-91 | a newline byte is decoded as one wherever it stands, and cuts any buffer into two that decode on their own |
| TextEncoding.CutBetween | backend/live-sessions/session-goal-tracker.ts:86-91 | well-formed text cut between two characters decodes to the two sides of the text |
| TextEncoding.CutInside | backend/live-sessions/session-goal-tracker.ts:86-91 | well-formed text cut inside a character decodes to more characters than it has |
| TextEncoding.ReencodedSize | backend/timing-ledger.ts:406 | decoded bytes encoded again are never fewer, and as many exactly when no replaced part was shorter than U+FFFD |
| GoalTracker.FileState.ConsumeLine | backend/live-sessions/session-goal-tracker.ts:137-173 | one entry's effect on goal, time and message count |
| GoalTracker.FileState.ConsumeChunk | backend/live-sessions/session-goal-tracker.ts:127-134 | the loop consumes exactly the complete lines and keeps the rest pending |
| GoalTracker.ReadSeed | backend/live-sessions/session-goal-tracker.ts:67-82 | the bytes of the tail window, decoded, without the leading fragment unless the window starts at a line or holds no line break |
| GoalTracker.Refresh | backend/live-sessions/session-goal-tracker.ts:52-105 | what is tracked after one refresh, and the report: one exactly when a goal entry was seen, with the goal, the messages since and the time tracked |
| GoalTracker.TwoChunks | backend/live-sessions/session-goal-tracker.ts:86-92 | two chunks are consumed as one |
| GoalTracker.ChunksDoNotMatter | backend/live-sessions/session-goal-tracker.ts:52-134 | after any refreshes of a growing file the state is that of the pieces, each decoded on its own, taken as one text |
| GoalTracker.PiecesAreText | backend/live-sessions/session-goal-tracker.ts:74-91 | the decoded pieces of well-formed text are the decoded text exactly when no piece but the last ends inside a character |
| GoalTracker.IncrementalIsFullScan | backend/live-sessions/session-goal-tracker.ts:52-134 | for a growing file first seen within the window, the lines taken and the pending text are those of a full scan exactly when every refresh before the last growth ended between two characters; then the state is too |
| GoalTracker.CutCharacterLosesGoal | backend/live-sessions/session-goal-tracker.ts:86-91 | a goal line with a two-byte character, refreshed between its bytes: the goal is missed |
| GoalTracker.TruncationReseeds | backend/live-sessions/session-goal-tracker.ts:64-85 | a file that shrank is read again whatever was known of it |
| GoalTracker.WhatLinesLeave | backend/live-sessions/session-goal-tracker.ts:137-173 | lines leave the goal of the last goal entry that is well formed or a tombstone, the time of the last with a timestamp, and the messages after the last one |
| GoalTracker.ReportsAgreeExactly | backend/live-sessions/session-goal-tracker.ts:127-173 | two states report the same after the same lines exactly when whatever those lines leave open agreed before |
| GoalTracker.TailLinesExactly | backend/live-sessions/session-goal-tracker.ts:67-85 | a scan of the last lines reports what a scan of all lines does exactly when they hold a goal entry that is not malformed, or the earlier lines leave no goal, and one with a timestamp, or the earlier lines leave no time; or no line is a goal entry |
| GoalTracker.ReportIsLeft | backend/live-sessions/session-goal-tracker.ts:52-109 | after any refreshes of a growing file, wherever they cut it, the report is what the lines of the decoded pieces leave, the message count given with a goal only |
| GoalTracker.TrackingExactly | backend/live-sessions/session-goal-tracker.ts:52-134 | wherever the refreshes cut the file, tracking reports what a full scan does exactly when whatever the lines both end in leave open agrees after the lines before them |
| GoalTracker.TailWindowExactly | backend/live-sessions/session-goal-tracker.ts:52-134 | for refreshes that end between two characters: tracking from a tail window, then and after any appends, reports what a full scan does exactly under that condition on the lines before the window, the kept fragment and the lines inside |
| GoalTracker.AlignedWindowExactly | backend/live-sessions/session-goal-tracker.ts:67-85 | for a window that starts at a line or holds a line break, the condition is that of `TailLinesExactly` |
| GoalTracker.TailWindowAgrees | backend/live-sessions/session-goal-tracker.ts:67-85 | in particular the reports agree when the window holds a goal entry that is not malformed and one with a timestamp |
| GoalTracker.UntimedGoalLosesTime | backend/live-sessions/session-goal-tracker.ts:156-157 | without a timestamp on that entry the reports can differ |
| TimingLedger.TimingLedger.Ingest | backend/timing-ledger.ts:412-492 | one record updates the bucket of its date, kind and scope |
| TimingLedger.TimingLedger.CountOnDay | backend/timing-ledger.ts:420-423 | the call counters of the day |
| TimingLedger.TimingLedger.TimeOnDay | backend/timing-ledger.ts:424-432 | the first-token and thinking sums of the day |
| TimingLedger.TimingLedger.CountInBucket | backend/timing-ledger.ts:433-462 | the row of a model |
| TimingLedger.TimingLedger.CountUse | backend/timing-ledger.ts:466-476 | the row of a tool |
| TimingLedger.TimingLedger.ReadTail | backend/timing-ledger.ts:382-410 | the complete lines after the offset are ingested within the cutoff, and the new offset is the old one and the size of their decoded text encoded again |
| TimingLedger.TimingLedger.RefreshNow | backend/timing-ledger.ts:356-380 | every readable file is resumed at its offset, or at its head when it shrank |
| TimingLedger.TimingLedger.GetReport | backend/timing-ledger.ts:247-274 | the daily points and the merged buckets of a window with the record count and the overhead |
| TimingLedger.TimingLedger.MergeModels | backend/timing-ledger.ts:524-542 | the loop merges two model tables key by key |
| TimingLedger.TimingLedger.MergeTools | backend/timing-ledger.ts:544-556 | the same for tools |
| TimingLedger.TimingLedger.MergeSessions | backend/timing-ledger.ts:558-571 | the same for sessions, the newer caption winning |
| TimingLedger.RecordLaw | backend/timing-ledger.ts:412-504 | a record adds to every number of its day exactly what that number is for |
| TimingLedger.DaysAreSums | backend/timing-ledger.ts:412-504 | every number of every day is the sum over the records of that date |
| TimingLedger.DaysBalance | backend/timing-ledger.ts:412-504 | each total of a day is the sum of the table rows that split it |
| TimingLedger.ReportBalances | backend/timing-ledger.ts:258-268 | so it is in every report: calls, tokens, errors and times by model, tool and session |
| TimingLedger.ReportIsSum | backend/timing-ledger.ts:258-268 | every number of a report is the sum over the records of its window, each once |
| TimingLedger.RecordCountIsExact | backend/timing-ledger.ts:264 | the record count is the number of records of the window |
| TimingLedger.ReportIsSampled | backend/timing-ledger.ts:524-556 | the samples behind each percentile are as many as the calls behind the average, and add up to its sum |
| TimingRows.DaySamplesAreValues | backend/timing-ledger.ts:433-476 | the samples of a model's first tokens and of a tool's durations are the values of its records, in their order |
| TimingRows.ReportSamplesAreValues | backend/timing-ledger.ts:524-556 | and in a report those of the records of its window, day after day |
| TimingRows.DayCaptionIsLatest | backend/timing-ledger.ts:494-504 | a session's caption is that of its latest record that has one |
| TimingRows.ReportCaptionIsLatest | backend/timing-ledger.ts:558-571 | and in a report that of the latest day that has one |
| TimingRows.PointShows | backend/timing-ledger.ts:247-274 | a daily point shows the totals of its date without the tables, and what is left of the active time after models and tools, never below zero |
| TimingLedger.PercentileSplits | backend/timing-ledger.ts:184-188 | at least the given share of the samples is at or below the percentile and less than that share is below it |
| TimingRuns.OffsetIsExact | backend/timing-ledger.ts:390-406 | the new offset is just after the last newline exactly when no replaced part in the complete lines is shorter than its replacement |
| TimingRuns.StrayByteIsReadTwice | backend/timing-ledger.ts:373-406 | one byte that is no character: the offset lies beyond the file, and the next refresh reads the line again |
| TimingRuns.EveryLineOnce | backend/timing-ledger.ts:356-410 | for growing files of well-formed text and any interleaving of appends and refreshes, each stored offset is a line boundary and the lines taken are the complete lines before it, each once |
| TimingRuns.RefreshCatchesUp | backend/timing-ledger.ts:356-410 | a listed file has then been read up to its last complete line |
| TimingRuns.ShrunkFileCountsTwice | backend/timing-ledger.ts:373-376 | the lines of a file that shrank are read on top of those read of it before, of which there were some |
| TimingRuns.DaysAreOnePass | backend/timing-ledger.ts:356-492 | the buckets are one pass of ingestion over the lines read, each judged by the cutoff of its refresh |
| TimingRuns.LogAddsUp | backend/timing-ledger.ts:356-492 | however the reads of several files are interleaved, their records add up file by file, each line judged by the cutoff of the refresh that read it |
| TimingRuns.ExpiredAreExtra | backend/timing-ledger.ts:402-404 | what a log counts is what it would count under the last cutoff, and the records that have expired since they were read |
| TimingRuns.AnyInterleavingIsOnePass | backend/timing-ledger.ts:356-492 | after any interleaving of appends and refreshes, none with a later cutoff than a last refresh of all files, every number of every day is the sum over the complete lines of all files, each judged when it was read; it is what a fresh ledger gives and what has expired since, and so the same exactly when that adds nothing |
| TimingRuns.OneCutoffIsOnePass | backend/timing-ledger.ts:356-492 | as long as every refresh has the same cutoff the numbers are those of a ledger that reads the files once |
| TimingRuns.ExpiredRecordStays | backend/timing-ledger.ts:363-403 | a model call that expires between two refreshes is still counted, which a fresh ledger does not |
| Sums.SumUpdate | backend/timing-ledger.ts:494-504 | changing one row changes a column's sum by as much |
| Sums.SumAdded | backend/timing-ledger.ts:524-571 | adding two tables key by key adds their sums |
| UsageLedger.StorableExactly | backend/usage-ledger.ts:67-103 | a counted message is unstorable exactly when it is free and reports zero total tokens |
| UsageRules.UsageIsCounted | backend/usage-ledger.ts:67-103 | a message is counted exactly when it reports tokens or a cost, with the reported total or the sum of its parts |
| UsageLedger.Ledger.LoadMonth | backend/usage-ledger.ts:403-445 | a month is read once, storable lines only, later lines over earlier ones |
| UsageLedger.Ledger.RecordUsage | backend/usage-ledger.ts:530-557 | known records stay; a new one, or one that brings an effort, is in memory at once and its append is queued |
| UsageLedger.Ledger.FinishWrite | backend/usage-ledger.ts:556-566 | the oldest append ends: its line is in the file, or what it had replaced is put back and the version raised |
| UsageLedger.OneWriteAtATime | backend/usage-ledger.ts:530-567 | with no other append on its way, a record is stored and its line appended, or nothing has happened |
| UsageRules.TakesExactly | backend/usage-ledger.ts:530-557 | a record is taken exactly when its id is new in its month, or is there without an effort and now comes with one; then it alone changes and one append is queued with what it replaced |
| UsageRules.FlushesExactly | backend/usage-ledger.ts:556-566 | an append that succeeds adds its line at the end of its file and changes nothing else; one that fails puts back what its record had replaced, or takes the record out |
| UsageRules.LoadsExactly | backend/usage-ledger.ts:403-445 | a month is loaded once, with the last storable line of every id |
| UsageLedger.Ledger.AskReport | backend/usage-ledger.ts:295-311 | a current cached report at once, else a shared or a new build |
| UsageLedger.Ledger.FinishReport | backend/usage-ledger.ts:313-318 | a build reads the records of its month as they are then |
| UsageLedger.Ledger.SettleReport | backend/usage-ledger.ts:302-309 | a finished build is cached only if the version is the one it was asked at |
| UsageLedger.Ledger.BuildReport | backend/usage-ledger.ts:313-397 | the grouping loop and the grand total over the days |
| UsageLedger.Ledger.AddRows | backend/usage-ledger.ts:360-361 | the grand total is the sum of the days |
| UsageLedger.ReportConserves | backend/usage-ledger.ts:313-397 | days, models and sessions each add up to the grand total, each model is the sum of its efforts, each day the sum of its models |
| UsageLedger.RowsAreSums | backend/usage-ledger.ts:328-358 | every row is the sum over exactly the records it stands for |
| UsageLedger.RecordCountExactly | backend/usage-ledger.ts:325-395 | the record count is the number of records the report counts exactly when the report's zone puts every record stored under the month into the month |
| UsageLedger.CountsForeignDay | backend/usage-ledger.ts:325-395 | a record of the first of the month, asked for in a zone that is behind: counted, with all sums zero |
| UsageLedger.OwnZoneCountIsExact | backend/usage-ledger.ts:325-536 | in the zone by which records are filed the record count is exact after every run |
| UsageLedger.IngestingAgainChangesNothing | backend/usage-ledger.ts:530-536 | recording the same messages again changes neither memory nor files |
| UsageLedger.ReplayIsLatestKept | backend/usage-ledger.ts:412-445 | reading a month file gives the last storable line of each id |
| UsageLedger.RunMirrors | backend/usage-ledger.ts:530-567 | a month in memory is its loaded file and one write per line appended since |
| UsageLedger.ReloadIsExact | backend/usage-ledger.ts:412-445 | reading the month file again gives the records in memory if and only if each has positive tokens or cost |
| UsageLedger.FreeMessageIsLost | backend/usage-ledger.ts:67-103 | five free input tokens with a reported total of zero: recorded, and gone after a reload |
| UsageWrites.StoringTracks | backend/usage-ledger.ts:530-557 | taking a record keeps memory in step with the lines written and those on their way |
| UsageWrites.RollbackExactly | backend/usage-ledger.ts:556-566 | a failed append keeps them in step exactly when no other write of its id waits behind it; otherwise memory loses a record whose line is still to come |
| UsageWrites.QuietMemoryIsTheFile | backend/usage-ledger.ts:530-567 | however writes overlap and appends fail, if none fails with another of its id behind it, a month in memory holds what its file says once all appends are over |
| UsageWrites.OvertakenFailureLosesRecord | backend/usage-ledger.ts:535-566 | a message taken, taken again with its effort, the first append failing: the file holds the message and memory does not |
| UsageLedger.CacheIsFresh | backend/usage-ledger.ts:295-311 | over every interleaving of loads, changes, requests and slow builds, a cached report is what a fresh build of the current records gives |
| UsageLedger.JobsAreBuilt | backend/usage-ledger.ts:295-318 | over every interleaving, a finished build reports the records as they were at some moment of the run, and names the version of that moment |
| UsageLedger.WaitedReportIsCurrent | backend/usage-ledger.ts:295-311 | a request that the cache does not answer waits for a build asked for at the version of the request, whose report was read no earlier: a change is never missed by a request that came after it |
| MachinePreview.BoundedText | backend/machine-preview.ts:19-31 | the loop keeps the longest prefix of whole code points within the text budget, lone surrogates left out |
| MachinePreview.CompletedMessage | backend/machine-preview.ts:33-48 | which entries complete a message, and its bounded text |
| MachinePreview.Collect | backend/machine-preview.ts:65-69 | the newest completed messages, at most eight, oldest first |
| MachinePreview.ProjectMachinePreview | backend/machine-preview.ts:51-78 | a preview exactly for safe ids, the right session, a known status and a safe time, which it shows; the trimming loop ends |
| MachinePreview.BoundedIsLongest | backend/machine-preview.ts:19-31 | the bounded text is at most 512 UTF-8 bytes and one code point more would not be |
| PreviewTexts.PointsExactly | backend/machine-preview.ts:22-24 | the code points of a text are those whose UTF-16 units are the text, with no pair of surrogates taken apart |
| PreviewTexts.ScalarsPush | backend/machine-preview.ts:23-24 | every surrogate that stands alone is left out, every other code point kept in its order |
| PreviewTexts.CompletedExactly | backend/machine-preview.ts:33-48 | an entry shows a message exactly when a user or the assistant says something in it that is not all lone surrogates, in a string or in nothing but text blocks, and then the longest part of it that fits |
| PreviewTexts.CollectedInOrder | backend/machine-preview.ts:65-69 | messages are shown in the order of their entries |
| PreviewTexts.SizeIsOfText | backend/machine-preview.ts:72-74 | the size compared with the budget is the number of UTF-8 bytes of the JSON text that is sent, escapes included |
| MachinePreview.StopsAtFirstFit | backend/machine-preview.ts:72-77 | trimming stops at the first form that fits; every longer one is too large |
| MachinePreview.ShownIsLargestThatFits | backend/machine-preview.ts:72-77 | the preview shown is the largest of all trimmed forms that fit |
| PreviewTexts.LargestIsShown | backend/machine-preview.ts:72-77 | no preview that shows more of the newest messages, the oldest of them possibly cut, fits the budget |
| MachinePreview.TrimShowsNewest | backend/machine-preview.ts:74-76 | trimming leaves the newest messages in order, only the oldest shown possibly cut to a prefix |
| MachinePreview.EmptyFits | backend/machine-preview.ts:70-74 | a preview without messages fits, so the loop ends with one that does |
| MachinePreview.PreviewIsBounded | backend/machine-preview.ts:51-78 | every preview fits its byte budget, each text its own, and shows the newest completed messages |

## Left out

- HTTP routes, the WebSocket handshake and frame decoding, process spawning and terminals: they pass bytes and events between the modelled components and programs outside this repository, whose behaviour would have to be assumed.
- File permission, owner, inode and symlink checks: one boolean that may fail at each place the code checks, the inode of the journal's lock excepted. SHA-256 is taken as injective.
- Two calls on the replay journal at the same time, by processes whose lock was removed or replaced in the middle of a call; processes that have the journal open at once and call in turn are modelled. Of other processes' connectors only their journal calls are modelled.
- JSON decoding, string trimming and regular expressions of rows: parameters from text to meaning. JSON written by a component is read back unchanged.
- Calendar and time zones: functions from time to date. The dates of a timing window are a parameter, distinct where totals are claimed.
- Numbers: naturals for durations, tokens and costs; rounding and integers beyond the safe range are not modelled. The percentile's ratio is an exact fraction.
- Identities of objects in the timing and usage ledgers and in the timeline: buckets, records and rows are values in fields and maps that the methods reassign, so update in place and aliasing are not captured there.
- Order of map iteration in reports, and sorting of report rows.
- Registry events, pending command promises and timers; a timer that fires is a step that may come at any time. The order of queued commands is left open, since a reconnection starts a new tail, so the wait before an exclusive operation is a step that may come at any time too.
- Registry.Entry.Install: the goal anchor and the pending dialogs of an entry are not modelled.
- Registry.Entry.Project: the session name, model, thinking level and dialog mirror of a summary are not modelled.
- RegistryRuns.RemoteInputIsSafe: the lease is checked at both moments, but the same lease id may have been released and granted again in between.
- FamilyLimits.BuildFamilyGraph: the contraction needs ids that occur once (exactly when is `FamilyGraph.AllIdsAreDistinct`) and run ids that are no entry ids; the cap on sessions and the discovery of the family's files are not modelled.
- LinearRuns.CollapseLinearRuns: needs unique ids and run ids that are no entry ids; the order of the output is not specified.
- UsageLedger.IngestingAgainChangesNothing: for messages with a timestamp; without one the current time is taken, and so possibly another month.
- UsageLedger.Ledger.BuildReport: captions of sessions, the empty days of a month and the cost per token of a row are not modelled.
- UsageLedger.ReloadIsExact: for appends that succeed one after the other; overlapping and failing ones are in `UsageWrites`.
- TimingLedger.TimingLedger.GetReport: the averages and percentiles of a row are stated in lemmas of their own, not in its contract.
- TimingRuns.EveryLineOnce: for files of well-formed text that only grow; what happens otherwise is in `TimingRuns.StrayByteIsReadTwice` and `TimingRuns.ShrunkFileCountsTwice`.
- GoalTracker.Refresh: the record of one file; a file replaced by another at least as long is taken for a continuation, as the code does.
- GoalTracker.TailWindowExactly: for refreshes that end between two characters; for all others `GoalTracker.TrackingExactly` gives the condition on the lines of the decoded pieces.
- SessionHistory.ReadSessionHistoryPage: the file is one value during a call; a write between the size check and the read is not modelled.
- RPC and SDK event translators, settings, memory drafts, tasks, repositories and the supervisor: no module above depends on them.
