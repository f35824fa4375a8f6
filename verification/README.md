# Delivery Optimization client: a verified model

This project models the parts of the Delivery Optimization client whose behaviour is hard to see from any one body,
and proves what they promise: the agent's download engine with its task queue, the URI library with the cache-host
swap built on it, the incremental HTTP parser with its two printers, the path of a request from the SDK to the agent,
and the two concurrent structures around transfers and cache servers. Nothing here is executed; `dafny verify
dfyconfig.toml` checks all of it.

## What is where

**Queue and engine.** `TaskQueue.dfy` is the time-ordered multimap, `QueueOrder.dfy` proves its order over whole runs.
`Engine.dfy` is one download as a protocol of three parties: callers submit operations (Start, Pause, Finalize and
Abort go to the front of the queue, GetStatus to the back), the task thread runs one queued task at a time, and the
curl thread appends bytes and enqueues updates. `Download.dfy` holds the objects of the source; each of its methods is
proved to do what the engine's function says, and each event of the protocol is one such method. The other engine
files prove properties of every reachable state and every run: `EngineQueue.dfy` and `EngineSafety.dfy` (conservation
of bytes, finality), `EngineOutcomes.dfy` (what each operation and task does, as a table), `EngineHistory.dfy` and
`EngineStalls.dfy` (watchdog), `EngineSources.dfy` (the source of every request), `EngineBackoff.dfy` (the delay of
retries), `EngineResume.dfy` and `EnginePromises.dfy` (the file and the ranges requested), `EngineRanges.dfy` (the
Range headers that pile up), `EngineStatus.dfy` (how a caller resumes safely), `EngineTimers.dfy` (exactly when the
timer of a transient error does harm) and `EngineLimits.dfy` (two concrete runs that show what goes wrong otherwise).

**URI library.** `Sequences.dfy` and `Text.dfy` (bytes, C strings, decimal numbers), `Uri.dfy` (parser and printer),
`UriRoundTrip.dfy`, `Percent.dfy`, `Query.dfy`, `DotSegments.dfy`, `UriBuilder.dfy` and `HostSwap.dfy`.

**HTTP.** `HttpMessage.dfy` (what a message is, read in one piece), `HttpGrammar.dfy` (the grammar this amounts to),
`HttpParser.dfy` (the parser object, fed in pieces), `Messages.dfy` (request and reply texts), `RestApi.dfy` (the
agent's reading of a request) and `RequestPath.dfy` (from end to end).

**Around it.** `CurlRequests.dfy` (the handshake between callers and the transfer worker), `MccManager.dfy` (bans of
cache servers).

## What is assumed of the surroundings

- The steady clock does not run backwards; times are integers (milliseconds in the engine, nanoseconds for bans).
- Appending to the destination file is all or nothing; sending a request, creating and closing the file and scheduling
  a task do not fail. Opening the file may fail, and then the operation is refused.
- The properties about file contents speak of honest runs (`EngineResume.Honest`): the resource does not change, the
  server sends the bytes that the last Range header of a request asks for, whatever the others say, and announces the
  right total, a request that fails has delivered fewer bytes than the total, and every Start that resumes a paused
  download runs when no count of bytes and no completion is queued and the download is not in a transient error.
  `EngineStatus.StatusSettlesThePause` shows how a caller gets there, `EngineLimits` what happens to one who does not.
  Conservation, finality, watchdog, source switching and the list of Range headers need none of this: they hold in
  every reachable state. The watchdog's bound in time (`EngineStalls.PromptRun`) takes the task thread to run every
  task before time passes beyond it.
- Counts of bytes are unbounded integers; the source's 64-bit counts are not modelled to wrap around.
- Whether the network is up, which cache server is configured, whether it is banned and which fallback delay is set
  are read anew by every task, as arbitrary inputs.
- `stray` is the value an `int` variable holds before it is set: the parser reads such a value as the port when an
  authority ends with a bare colon (`do_cpprest_uri.cpp:260-271`).

## Where the code does not do what one may expect

- A Start that directly follows a Pause jumps ahead of queued byte counts, asks for bytes the file already has, and
  corrupts the file (`EngineLimits.EarlyStartCorruptsTheFile`). `EnginePromises.ContinuesExactlyWhenCounted` gives the
  exact condition. The comment in `download_manager.cpp:96-97` explains only why a status is read at the end of the
  queue.
- The agent appends a Range header to its list with every ranged request and frees the list only for a request without
  a range (`http_agent.cpp:72-86`) and at its end (`http_agent.h:60-63`). From the second ranged request on, requests
  carry all earlier ranges too, their own last (`EngineRanges.RangeHeadersPileUp`). Two connections that break are
  enough (`EngineRanges.TwoRangeHeaders`); a server that goes by the first header then corrupts the file.
- A Start that resumes a download leaves a 30-second timer armed behind it exactly when the status it finds is a
  transient error (`EngineTimers.TimerStaysArmedExactly`). Some continuation then reaches the assertion that no
  request is active and fails it, and otherwise none does (`EngineTimers.StartFailsExactlyInTransientError`;
  `EngineLimits.StartInTransientErrorBreaksAnAssertion` is a whole run).
- A message with more bytes behind the blank line than its content length is read differently depending on how it was
  split, and never completes when it comes in one piece (`HttpParsers.ChunkIndependence`).
- Appending a pair to a query changes the pairs before it when a semicolon and an equals sign stand behind the last
  ampersand, unless both ways of reading that part only repeat pairs from before it (`Query.AppendKeepsOldPairs` is
  the exact condition, `Query.SemicolonChangesPairs` that for queries without ampersands).
- Printing and parsing are inverse exactly for hosts that neither begin like user information nor end like a port
  (`UriRoundTrip.ParseUndoesPrint`).
- The host component is encoded without encoding the percent sign, so decoding does not undo it
  (`Percent.PlacesAreReversible`).
- A removal that is queued when its transfer completes strips the next transfer of the same handle, which then gets no
  callback (`CurlWrappers.LateRemovalStripsNextAdd`).

## Model

| member | source | states |
|---|---|---|
| TaskQueues.InsertAt | client-lite/src/threading/task_queue.cpp:7-14 | the multimap puts an element behind exactly the elements due no later, so ties are first in, first out |
| TaskQueues.RemoveTagSorted | client-lite/src/threading/task_queue.cpp:54-72 | removing a tag keeps the order by time and never brings an earlier first element |
| TaskQueues.TaskQueue.Add | client-lite/src/threading/task_queue.cpp:7-14 | inserts by due time, a negative delay counting as none, and keeps the queue sorted |
| TaskQueues.TaskQueue.PushFront | client-lite/src/threading/task_queue.cpp:16-31 | inserts one tick before both the clock and the earliest element |
| TaskQueues.TaskQueue.PopNextReady | client-lite/src/threading/task_queue.cpp:33-52 | takes the first element if and only if it is due, and nothing else |
| TaskQueues.TaskQueue.Remove | client-lite/src/threading/task_queue.cpp:54-72 | erases exactly the elements of a tag; the null tag removes nothing |
| TaskQueues.TaskQueue.Exists | client-lite/src/threading/task_queue.cpp:74-89 | true if and only if an element has the tag, and never for the null tag |
| TaskQueues.TaskQueue.NextTime | client-lite/src/threading/task_queue.cpp:91-95 | the least time of the queue, or none for an empty one |
| QueueOrder.PlayKeepsInvariant | client-lite/src/threading/task_queue.cpp:7-95 | every run of additions, front insertions, pops, removals and passing time keeps the queue's order and the record of what left it |
| QueueOrder.NeverEarly | client-lite/src/threading/task_queue.cpp:33-52 | over every run, no task is popped before the time it was added for |
| QueueOrder.NeverOvertaken | client-lite/src/threading/task_queue.cpp:7-14 | a task added earlier with a delay no larger is popped first unless removed, whatever is inserted in between |
| QueueOrder.FrontGoesFirst | client-lite/src/threading/task_queue.cpp:16-31 | a task inserted at the front is popped before everything queued then |
| QueueOrder.ExactlyOneFate | client-lite/src/threading/task_queue.cpp:33-72 | every task ever added is queued, popped or removed, exactly one of these and exactly once |
| EngineQueue.AddTaskContents | client-lite/src/threading/task_thread.h:21-33 | scheduling appends a task behind all tasks of its kind and leaves every other kind as it was |
| EngineQueue.AddFrontContents | client-lite/src/threading/task_thread.h:67-73 | scheduling at the front puts a task before all tasks of its kind |
| EngineQueue.CancelContents | client-lite/src/download/download.cpp:450-454 | cancelling removes every task of the download and of its tracker and leaves callers' operations |
| Downloads.ProgressTracker.CheckProgress | client-lite/src/download/download_progress_tracker.h:12-28 | the tracker's new counters, and whether the allowance is used up |
| Downloads.ProgressTracker.OnDownloadFailure | client-lite/src/download/download_progress_tracker.h:30-33 | the retry delay doubles up to its maximum |
| Downloads.Download.UpdateConnectionType | client-lite/src/download/download.cpp:468-552 | which source the next request uses, and how the attempt counter and the permission to use the cache change |
| Downloads.Download.SchedProgressTracking | client-lite/src/download/download.cpp:425-448 | one check is scheduled unless one is queued |
| Downloads.HttpAgent.SendRequest | client-lite/src/util/http_agent.cpp:69-96 | a range is appended to the header list, which a request without one frees; the request carries the whole list |
| Downloads.Download.SendHttpRequest | client-lite/src/download/download.cpp:384-423 | the request sent, its range, all its Range headers and its source, and the status and watchdog after it |
| Downloads.Download.BeginDownload | client-lite/src/download/download.cpp:258-286 | a first start empties the file, sets the fallback time and sends a request |
| Downloads.Download.ResumeDownload | client-lite/src/download/download.cpp:288-315 | a resume sends a request, or reports completion from the front of the queue when every byte is there |
| Downloads.Download.PauseDownload | client-lite/src/download/download.cpp:317-323 | the request is closed |
| Downloads.Download.FinalizeDownload | client-lite/src/download/download.cpp:325-331 | the request is closed and every task is cancelled |
| Downloads.Download.AbortDownload | client-lite/src/download/download.cpp:333-348 | the request is closed, every task is cancelled and the file is deleted |
| Downloads.Download.PerformStateChange | client-lite/src/download/download.cpp:154-255 | the six-state machine: which operations are accepted where, and what they do |
| Downloads.Download.HandleTransientError | client-lite/src/download/download.cpp:350-370 | the download pauses without an error and a retry is due in thirty seconds |
| Downloads.Download.ResumeAfterTransientError | client-lite/src/download/download.cpp:372-382 | sends a request if and only if the download is still in a transient error |
| Downloads.Download.ShouldPauseMccUsage | client-lite/src/download/download.cpp:554-586 | when a failure makes the next retry leave the cache without a delay |
| Downloads.Download.ShouldFailFast | client-lite/src/download/download.cpp:588-622 | which failures are fatal |
| Downloads.Download.RunFailed | client-lite/src/download/download.cpp:690-742 | what a failed request leads to: transient error, fatal pause, or a retry with its delay |
| Downloads.Download.RunCheck | client-lite/src/download/download.cpp:432-447 | the watchdog pauses a download whose allowance is used up and arms itself again otherwise |
| Downloads.Download.Poll | client-lite/src/threading/task_thread.cpp:34-59 | one poll is one step of the protocol |
| Downloads.Download.SchedBlock | client-lite/src/threading/task_thread.cpp:64-100 | a caller's operation is queued, at the front or for a status at the back (client-lite/src/download/download_manager.cpp:92-104) |
| Downloads.Download.OnHeadersAvailable | client-lite/src/download/download.cpp:626-656 | headers only enqueue an update of the total |
| Downloads.Download.OnData | client-lite/src/download/download.cpp:658-666 | bytes are appended at once and counted later, by a queued update |
| Downloads.Download.OnComplete | client-lite/src/download/download.cpp:668-745 | a completion only enqueues what follows from it |
| EngineOutcomes.TransitionTable | client-lite/src/download/download.cpp:154-255 | the six states as a table: where each operation leads, that it is answered with the status there, and that one which leads nowhere, refused or not, changes nothing else |
| EngineOutcomes.PauseOutcome | client-lite/src/download/download.cpp:187-190 | Pause while transferring closes the request, clears both errors and leaves file and queue alone |
| EngineOutcomes.FinalizeOutcome | client-lite/src/download/download.cpp:325-331 | in every reachable state Finalize of a transferred download closes the request, keeps the file, and leaves of the queue exactly the callers' operations |
| EngineOutcomes.AbortOutcome | client-lite/src/download/download.cpp:333-348 | in every reachable state Abort before the end closes the request, deletes the file, and leaves of the queue exactly the callers' operations |
| EngineOutcomes.StartOutcome | client-lite/src/download/download.cpp:258-286 | a first Start sends one request without a range with an empty file, and a check is due in ten seconds |
| EngineOutcomes.ResumeOutcome | client-lite/src/download/download.cpp:288-315 | a Start that resumes sends one request, or with all bytes counted queues the completion ahead of everything |
| EngineOutcomes.FinalFailureOutcome | client-lite/src/download/download.cpp:600-716 | a failure of a callback, a client error unless MCC may be left for the original URL, or one of four fatal results pauses the download with its error and queues nothing |
| EngineOutcomes.RetriedFailureOutcome | client-lite/src/download/download.cpp:718-742 | any other failure keeps the state and queues one retry: at once when MCC is to be left, otherwise after twice the delay, thirty seconds at most |
| EngineOutcomes.FailsExactlyWhenFinal | client-lite/src/download/download.cpp:710-742 | with the network up a failure ends without a retry if and only if it is final |
| EngineOutcomes.OfflineFailureOutcome | client-lite/src/download/download.cpp:350-370 | with the network down every failure pauses as a transient error, with a timer due in thirty seconds |
| EngineOutcomes.RetryOutcome | client-lite/src/download/download.cpp:733-740 | a retry sends one request if and only if the download is transferring with none active |
| EngineOutcomes.TimerOfflineOutcome | client-lite/src/download/download.cpp:358-368 | the timer of a transient error arms itself again while the network is down |
| EngineOutcomes.TimerOnlineOutcome | client-lite/src/download/download.cpp:372-382 | with the network up it sends one request if and only if the download is still in a transient error |
| EngineOutcomes.CheckOutcome | client-lite/src/download/download.cpp:432-447 | a check counts, then pauses for want of progress with the former error as the extended one if and only if the allowance is used up, and is otherwise due again in ten seconds |
| EngineOutcomes.UpdateOutcome | client-lite/src/download/download.cpp:626-682 | what updates of the total, the count and the completion change, and nothing else |
| EngineOutcomes.OperationsGoFirst | client-lite/src/threading/task_queue.cpp:16-31 | in every reachable state Start, Pause, Finalize and Abort are queued ahead of everything |
| EngineOutcomes.DeliverOutcome | client-lite/src/download/download.cpp:658-666 | bytes are appended at once, and their count is queued behind what is due |
| EngineBackoff.DelayDoubles | client-lite/src/download/download_progress_tracker.h:30-46 | over every run the retry delay is a second doubled for each delayed retry since MCC was last left, thirty seconds at most |
| EngineSafety.NextKeepsSafe | client-lite/src/download/download.cpp:154-745 | every step of every party keeps the invariant: conservation, at most one watchdog, a request only while transferring, nothing queued once final |
| EngineSafety.BytesAreConserved | client-lite/src/download/download.cpp:658-666 | until Finalize or Abort, the file's length is the byte count plus the counts still queued |
| EngineSafety.FinalIsForever | client-lite/src/download/download.cpp:243-250 | after Finalize or Abort no run sends or runs a request, changes download or file, or has any but callers' operations queued |
| EngineHistory.StepFrame | client-lite/src/download/download.cpp:384-448 | a step leaves the watchdog alone or makes one check, and sends at most one request |
| EngineHistory.WatchdogCountsStalls | client-lite/src/download/download_progress_tracker.h:12-28 | in every reachable state the counter is the number of latest checks without progress, and the last count seen is not ahead of the bytes |
| EngineHistory.WatchdogIsArmed | client-lite/src/download/download.cpp:425-448 | while transferring, a check is queued within its interval, or the completion task is due |
| EngineHistory.OnlyOneWatchdog | client-lite/src/download/download.cpp:427-430 | no reachable queue holds two checks |
| EngineHistory.StallIsBounded | client-lite/src/download/download.cpp:432-447 | along a spell of transferring without a new byte the counter grows with every check and stays below the maximum |
| EngineHistory.WatchdogEndsStalls | client-lite/src/download/download.cpp:436-441 | such a spell survives no more checks than the allowance has left |
| EngineStalls.WatchdogLimitsTheTime | client-lite/src/download/download.cpp:432-447 | in time, such a spell lasts for at most one interval more than the checks the allowance has left |
| EngineSources.EveryRequestFollowsRule | client-lite/src/download/download.cpp:468-552 | in every reachable log each request goes where the log says: MCC if and only if usable when it is no retry; the original URL once falling back is due; the same source before, while MCC is usable; and with no fallback time the original URL first, then a switch if and only if two requests in a row are stuck and MCC is usable |
| EngineSources.FallingBackIsForGood | client-lite/src/download/download.cpp:475-483 | once a retry fell back, MCC is given up and no later request uses it |
| EngineSources.CircumstancesAreLogged | client-lite/src/download/download.cpp:384-423 | what the log says of a request is true of the step that sent it: time, retry, fallback time, and whether MCC was permitted, configured and not banned |
| EngineSources.StalledRetriesSwitchSource | client-lite/src/download/download.cpp:484-515 | with no fallback time and a usable cache, no three requests in a row go to one source when the third is a retry without progress |
| EngineHistory.AttemptsCountTheRun | client-lite/src/download/download.cpp:538-546 | the attempt counter is the length of the run of requests to the current source |
| EngineHistory.MccStaysGivenUp | client-lite/src/download/download.cpp:475-483 | once the cache is given up, every later request goes to the original URL |
| EngineResume.NextKeepsSound | client-lite/src/download/download.cpp:384-745 | every honest step keeps file, counts, range in flight and total consistent with the resource |
| EnginePromises.FileIsAPrefix | client-lite/src/download/download.cpp:658-666 | in every honest run, the server going by the last Range header, the file is at every moment a prefix of the resource |
| EnginePromises.TransferredMeansComplete | client-lite/src/download/download.cpp:672-680 | a download that is transferred or finalized has the whole resource in its file |
| EnginePromises.RequestsContinueTheFile | client-lite/src/download/download.cpp:396-408 | every request, retries and resumes from transient errors included, asks with its last Range header for exactly the bytes from the end of the file to the end of the resource |
| EngineRanges.RangeHeadersPileUp | client-lite/src/util/http_agent.cpp:72-86 | in every reachable state a request without a range carries no Range header, and one with a range carries every range asked for so far, its own last: a single header if and only if no earlier request had a range |
| EngineRanges.TwoRangeHeaders | client-lite/src/util/http_agent.cpp:72-86 | a concrete run after two broken connections with two contradicting Range headers, the first of which would corrupt the file |
| EnginePromises.ContinuesExactlyWhenCounted | client-lite/src/download/download.cpp:396-408 | in every reachable state, honest or not, a request continues the file if and only if no count of bytes is queued |
| EnginePromises.AssertionsNeverFail | client-lite/src/download/download.cpp:291-292 | in honest runs no assertion of the source fails when a task runs |
| EngineStatus.StatusSettlesThePause | client-lite/src/download/download_manager.cpp:92-104 | after Pause and an answered GetDownloadStatus no update is queued, the byte count is the file's length, and Start resumes in time |
| EngineTimers.TimerStaysArmedExactly | client-lite/src/download/download.cpp:350-382 | after every Start that resumes a download in an honest run, a timer of a transient error is queued if and only if the status was a transient error |
| EngineTimers.StartFailsExactlyInTransientError | client-lite/src/download/download.cpp:372-382 | with no other operation or count queued and the watchdog not about to give up, a Start leads to a failing assertion in some honest continuation if and only if it runs in a transient error |
| EngineLimits.EarlyStartCorruptsTheFile | client-lite/src/threading/task_queue.cpp:16-31 | a concrete run in which Start overtakes a queued byte count and the file is no prefix of the resource |
| EngineLimits.StartInTransientErrorBreaksAnAssertion | client-lite/src/download/download.cpp:358-382 | a concrete run in which the timer of an earlier transient error meets an active request |
| Text.CString | common/lib-dohttp/do_cpprest_uri.cpp:571 | what is seen of a string through a pointer: its longest prefix without a NUL |
| Text.DecimalRoundTrip | common/lib-dohttp/do_cpprest_uri.cpp:529-532 | reading a printed decimal number gives the number |
| Uri.Walk | common/lib-dohttp/do_cpprest_uri.cpp:231-240 | walks to the first stop character, or fails if and only if something before it is illegal |
| Uri.CharacterClasses | common/lib-dohttp/do_cpprest_uri.cpp:42-152 | which characters each place of a URI allows, listed |
| Uri.FindPortColon | common/lib-dohttp/do_cpprest_uri.cpp:245-249 | finds where the digits at the end of an authority begin |
| Uri.ParseAuthority | common/lib-dohttp/do_cpprest_uri.cpp:242-292 | port, user information and host of an authority |
| Uri.ParseFrom | common/lib-dohttp/do_cpprest_uri.cpp:175-349 | the pointer walk accepts exactly the URI references of the grammar and finds their parts |
| Uri.ComponentsObject.JoinInPlace | common/lib-dohttp/do_cpprest_uri.cpp:491-559 | canonicalises the components and prints them |
| UriRoundTrip.ParseUndoesPrint | common/lib-dohttp/do_cpprest_uri.cpp:491-559 | legal components with a host and a rooted path print to a valid URI, which reads back as them, a non-positive port as 0, if and only if the host is unambiguous |
| UriRoundTrip.RelativeRoundTrip | common/lib-dohttp/do_cpprest_uri.cpp:177-193 | relative references with a slash before any colon read back as they were |
| UriRoundTrip.ParsedIsLegal | common/lib-dohttp/do_cpprest_uri.cpp:175-407 | whatever is accepted has legal canonical components, with a rooted path behind a host |
| UriRoundTrip.CanonicalFormIsStable | common/lib-dohttp/do_cpprest_uri.cpp:573-584 | parsing the text of a URI object gives the object again, up to the port, if and only if its host is unambiguous |
| Percent.EncodeImpl | common/lib-dohttp/do_cpprest_uri.cpp:411-434 | the loop replaces exactly the chosen characters by percent triplets |
| Percent.DecodeTemplate | common/lib-dohttp/do_cpprest_uri.cpp:674-706 | the loop decodes every triplet, and fails for a broken one or a character outside ASCII |
| Percent.DecodeUndoesEncodeExactly | common/lib-dohttp/do_cpprest_uri.cpp:411-434 | decoding undoes encoding on all byte strings if and only if the percent sign and everything outside ASCII is encoded |
| Percent.PlacesAreReversible | common/lib-dohttp/do_cpprest_uri.cpp:614-646 | decoding undoes encode_uri for every place of a URI but the host |
| Percent.QueryEncoding | common/lib-dohttp/do_cpprest_uri.cpp:586-601 | query encoding can be decoded and leaves no separator in its text |
| Percent.KeptCharacters | common/lib-dohttp/do_cpprest_uri.cpp:586-646 | which characters are left as they are in each place, listed |
| Query.SplitQueryLoop | common/lib-dohttp/do_cpprest_uri.cpp:731-766 | the loop finds every pair, of several with one key the last |
| Query.AppendPairSplits | common/lib-dohttp/do_cpprest_uri_builder.cpp:101-178 | a pair appended to any query is found in it under its encoded name with its encoded value |
| Query.AppendKeepsOldPairs | common/lib-dohttp/do_cpprest_uri_builder.cpp:101-140 | appending, whichever the pair, keeps all other pairs of a query if and only if the part behind the last ampersand has no semicolon, or no equals sign, or holds in both readings only pairs from before it |
| Query.SemicolonChangesPairs | common/lib-dohttp/do_cpprest_uri.cpp:739-740 | for queries without ampersands: appending keeps the pairs if and only if there is no semicolon or no equals sign |
| Query.SplitUndoesBuild | common/lib-dohttp/do_cpprest_uri_builder.cpp:101-178 | splitting a built query gives the later-wins map of the encoded pairs |
| Query.QueryRoundTrip | common/lib-dohttp/do_cpprest_uri.cpp:731-766 | for all byte strings, decoding keys and values of the split query gives every name with its last value, and no other |
| DotSegments.SplitPathLoop | common/lib-dohttp/do_cpprest_uri.cpp:713-729 | the loop gives the non-empty segments of a path |
| DotSegments.RemoveDotSegmentsLoop | common/lib-dohttp/do_cpprest_uri.cpp:453-488 | the loops over the stack compute the path without dot segments |
| DotSegments.SplitUndoesRender | common/lib-dohttp/do_cpprest_uri.cpp:713-729 | splitting a path that was put together from segments gives the segments |
| DotSegments.StackRefinesStandard | common/lib-dohttp/do_cpprest_uri.cpp:453-488 | stack and output buffer agree on any remaining input, whatever was put on them before |
| DotSegments.RemovesDotSegmentsAsStandard | common/lib-dohttp/do_cpprest_uri.cpp:453-488 | for every rooted path without empty segments the result, with its leading slash restored, is that of section 5.2.4 of RFC 3986 |
| DotSegments.NoDotSegmentIsLeft | common/lib-dohttp/do_cpprest_uri.cpp:453-488 | no segment of the result is a dot or a double dot |
| UriBuilders.UriBuilder.AppendPath | common/lib-dohttp/do_cpprest_uri_builder.cpp:25-65 | appends a path as UriBuilders.AppendToPath says; an empty one or a lone slash changes nothing |
| UriBuilders.OneSlashInBetween | common/lib-dohttp/do_cpprest_uri_builder.cpp:25-65 | whatever slashes the two texts meet with, the result is the one less a final slash, one slash, and the other less a leading slash |
| UriBuilders.AppendingConcatenatesSegments | common/lib-dohttp/do_cpprest_uri_builder.cpp:25-65 | for all texts, splitting the result gives the segments of the path followed by those that were appended |
| UriBuilders.UriBuilder.AppendQuery | common/lib-dohttp/do_cpprest_uri_builder.cpp:101-140 | appends a query with exactly one ampersand in between |
| UriBuilders.UriBuilder.AppendQueryPair | common/lib-dohttp/do_cpprest_uri_builder.cpp:170-178 | appends an encoded name and value |
| UriBuilders.UriBuilder.ToString | common/lib-dohttp/do_cpprest_uri.cpp:561-569 | the printed components, or a failure if they print to no URI |
| HostSwap.SwapUrlHostName | client-lite/src/download/download.cpp:748-760 | for every accepted URL and legal new host the text reads back with scheme, path and fragment unchanged, the old query a prefix, its pairs kept and cacheHostOrigin decoding to the old host; with the new host if and only if that is clear, and then user information is kept and the port is the given or the old one |
| HostSwap.SwapPreservesTheResource | client-lite/src/download/download.cpp:748-760 | the same of the specification, and the result is a URL to download from if the new host is clear |
| HostSwap.OriginIsNamed | client-lite/src/download/download.cpp:758 | the split query has the key cacheHostOrigin, with an encoding of the original host, whatever separators the old query held |
| HttpMessages.StatusLinePattern | common/lib-dohttp/do_http_parser.cpp:61 | the recogniser accepts the language of the status line pattern and captures its code |
| HttpMessages.RequestLinePattern | common/lib-dohttp/do_http_parser.cpp:60 | the recogniser accepts the language of the request line pattern and captures method and URL |
| HttpMessages.LengthPattern | common/lib-dohttp/do_http_parser.cpp:151-158 | the length captured is behind the last colon that has digits behind it |
| HttpGrammar.MessageExactly | common/lib-dohttp/do_http_parser.cpp:46-166 | a text is read to its end if and only if it is a first line, fields, a blank line and a body of the length that the last length field gives, and then with exactly what these say |
| HttpGrammar.RejectedExactly | common/lib-dohttp/do_http_parser.cpp:46-180 | a text is rejected if and only if a carriage return lacks its line feed, the first line is none, or behind readable fields stands such a carriage return or a content length that is none |
| HttpParsers.HttpParser.OnData | common/lib-dohttp/do_http_parser.cpp:24-35 | a piece is refused if the buffer cannot hold it; otherwise the parser is as far as it gets with all input so far, and throws if and only if that is a rejection |
| HttpParsers.HttpParser.ParseBuf | common/lib-dohttp/do_http_parser.cpp:46-126 | one state of the parser keeps what the input amounts to, and moves on while it can |
| HttpParsers.HttpParser.ParseNextField | common/lib-dohttp/do_http_parser.cpp:129-166 | one field is read, with the position staying in the buffer |
| HttpParsers.HttpParser.FindCRLF | common/lib-dohttp/do_http_parser.cpp:168-180 | finds the end of a line, the need for more data, or a malformed end |
| HttpParsers.HttpParser.Reset | common/lib-dohttp/do_http_parser.cpp:37-43 | the parser is as if nothing had come |
| HttpParsers.TwoChunks | common/lib-dohttp/do_http_parser.cpp:98-118 | feeding two pieces is feeding both at once if and only if the first did not already complete a body |
| HttpParsers.ChunkIndependence | common/lib-dohttp/do_http_parser.cpp:24-126 | every way to split a message gives what the whole gives if and only if no bytes follow its content length |
| HttpParsers.CapacityIsTheOnlyBound | common/lib-dohttp/do_http_parser.cpp:26-29 | a message above the capacity is rejected however it is split; any other is read as if there were no bound |
| HttpParsers.ReadAll | sdk-cpp/src/internal/rest/util/do_http_message.cpp:44-52 | the parser object fed piece by piece ends in the specified outcome |
| Messages.Serialize | sdk-cpp/src/internal/rest/util/do_http_message.cpp:28-42 | the text of a request |
| Messages.Reply | client-lite/src/ipc/rest_http_listener_conn.cpp:69-84 | the text of a reply |
| Messages.RequestIsRead | sdk-cpp/src/internal/rest/util/do_http_message.cpp:28-42 | a serialised request is read as complete, with its method and URL |
| Messages.ReplyArrives | client-lite/src/ipc/rest_http_listener_conn.cpp:69-84 | in whatever pieces a reply comes, its status code and exactly its body are read if it fits, and it is rejected if it does not |
| RestApi.RestApiParser.Method | client-lite/src/ipc/rest_api_parser.cpp:25-60 | the operation of a request, or a failure for an unsupported one |
| RestApi.SupportedExactly | client-lite/src/ipc/rest_api_parser.cpp:25-60 | exactly which path and verb ask for which operation, word for word |
| RestApi.KnownExactly | client-lite/src/ipc/rest_api_params.cpp:12-37 | exactly which names, without regard to case, stand for which parameter |
| RestApi.RestApiParser.ParseQueryString | client-lite/src/ipc/rest_api_parser.cpp:84-101 | every known parameter with its decoded value, the last key of one parameter winning; fails if and only if some key is unknown or some value cannot be decoded |
| RestApi.RestApiParser.QueryStringParam | client-lite/src/ipc/rest_api_parser.cpp:62-71 | the value of a parameter, parsed once |
| RestApi.DecodeAll | client-lite/src/ipc/rest_api_parser.cpp:89-99 | the walk over the pairs in the order of their keys fills the data |
| RequestPath.CreateRequest | sdk-cpp/src/internal/rest/download_impl.cpp:26-42 | the SDK's text for creating a download |
| RequestPath.OperationRequest | sdk-cpp/src/internal/rest/download_impl.cpp:183-192 | the SDK's text for an operation on a download |
| RequestPath.CallArrives | client-lite/src/ipc/rest_api_parser.cpp:25-101 | for every operation, all byte strings as arguments and every split into pieces, the agent sees the operation and decodes exactly the arguments if the request fits, and rejects it otherwise |
| RequestPath.CreateArrives | sdk-cpp/src/internal/rest/download_impl.cpp:30-36 | a create request brings exactly the URI and the path |
| RequestPath.ReceiveCall | client-lite/src/ipc/rest_http_listener_conn.cpp:121-138 | the agent's objects, fed a request in pieces, give the operation and its arguments if and only if it fits |
| CurlWrappers.StepKeepsSafe | client-lite/src/util/do_curl_wrappers.cpp:39-252 | in every interleaving active handles are distinct, an event is set exactly when its transfer left the active ones, and callbacks were invoked at most once |
| CurlWrappers.EventsAndCallbacks | client-lite/src/util/do_curl_wrappers.cpp:39-252 | in every state reachable from the start no handle is active twice, an event is set exactly for the transfers that were active and no longer are, and each of these had at most one callback |
| CurlWrappers.NoCallbackAfterwards | client-lite/src/util/do_curl_wrappers.cpp:231-252 | over every run from every reachable state: once the event of a transfer is set, as when Remove has returned, its callback has been invoked or never will be |
| CurlWrappers.RemoveIsComplete | client-lite/src/util/do_curl_wrappers.cpp:49-77 | from every reachable state: when Remove returns without a timeout and the handle was not added again, it is neither queued nor active; the worker's next turn ends the wait |
| CurlWrappers.AddedBecomesActive | client-lite/src/util/do_curl_wrappers.cpp:89-99 | in every reachable state an added transfer becomes active with the worker's next turn if and only if its handle is not active and no removal of it is queued |
| CurlWrappers.TurnExactly | client-lite/src/util/do_curl_wrappers.cpp:89-99 | exactly which transfers are active after a turn of the worker, from every reachable state |
| CurlWrappers.CompletionIsReported | client-lite/src/util/do_curl_wrappers.cpp:231-238 | in every reachable state the completion of an active transfer invokes its callback, and no other |
| CurlWrappers.CalledExactlyWhenCompleted | client-lite/src/util/do_curl_wrappers.cpp:231-252 | over every run a callback is invoked if and only if its transfer completes while active; those removed or dropped get none |
| CurlWrappers.LateRemovalStripsNextAdd | client-lite/src/util/do_curl_wrappers.cpp:95-99 | a concrete run after which an added transfer leaves without a callback |
| CurlWrappers.CurlRequests.Add | client-lite/src/util/do_curl_wrappers.cpp:39-47 | queues a transfer, or fails when stopped or queued already |
| CurlWrappers.CurlRequests.RemoveUnderLock | client-lite/src/util/do_curl_wrappers.cpp:53-70 | what Remove does under the lock, and what it then waits for |
| CurlWrappers.CurlRequests.Turn | client-lite/src/util/do_curl_wrappers.cpp:89-99 | the worker's turn adds what is queued, then removes what is queued |
| CurlWrappers.CurlRequests.CompleteOne | client-lite/src/util/do_curl_wrappers.cpp:231-238 | the callback is invoked and the transfer leaves |
| CurlWrappers.CurlRequests.RemoveAll | client-lite/src/util/do_curl_wrappers.cpp:220-229 | the destructor sets every event left |
| MccManagers.MCCManager.ReportHostError | client-lite/src/config/mcc_manager.cpp:73-101 | how a report changes the table; an invalid URL changes nothing |
| MccManagers.MCCManager.IsBanned | client-lite/src/config/mcc_manager.cpp:103-168 | whether a cache server is banned for a URL |
| MccManagers.ReportChanges | client-lite/src/config/mcc_manager.cpp:84-143 | a report sets exactly the one ban it is about |
| MccManagers.TableIsUnique | client-lite/src/config/mcc_manager.cpp:86-90 | no cache server and no original host has two entries |
| MccManagers.BannedExactlyByHistory | client-lite/src/config/mcc_manager.cpp:73-168 | banned at a time if and only if a report of the fifteen minutes before was a client error for the same original host, or a timeout, resolve or connect failure that was no client error |

## Left out

- Sockets, boost::asio, libcurl, libproxy, OpenSSL, signals, permissions and directories: foreign calls. Curl appears
  as an arbitrary source of headers, data and completions per active request.
- JSON configuration and bodies, logging, telemetry and version strings; the version in a reply is a parameter.
- The COM back end, the SDK's property stubs and the APT plugin, which hold no logic of their own.
- SetProperty and GetProperty: the URL, path and timeout of a download are fixed in the engine.
- The map of downloads, shutdown by idleness and the port search: easy members.
- WaitableCounter, ProxyList and StopWatch: easy members.
- resolve_uri and mergePaths; of reference resolution only the removal of dot segments is modelled.
- Encoding while appending a whole path or query, and setting the port from text: no caller uses them.
- `std::regex`: the three patterns are hand-written recognisers, proved to accept the same languages.
- EngineResume.Honest: an assumption about server and callers, listed above; what fails without it is in EngineLimits.
- Engine.Next: closing a request is one step, although the source waits for callbacks that are still running; these
  could as well have come before. Appending bytes and enqueuing their count is one step too. Reports to the table of
  bans are not connected to the engine, which takes any answer about bans.
- Engine.MakeRange: a range is a pair of numbers, not the text of its Range header; the list of these headers is
  modelled, with nothing else in it.
- Downloads.Download.UpdateConnectionType: the text of the URL that goes with the source is not part of the engine;
  HostSwap models it.
- Downloads.Download.SendHttpRequest: an exception from the transfer library while the request is set up is not
  modelled.
- Downloads.Download.BeginDownload: a URL or a path that was never set counts as a file that cannot be opened.
- Downloads.Download.RunFailed: the report of the failure to the table of bans is left out; MccManager models the
  table.
- EngineHistory.WatchdogCountsStalls: changing the URL of a paused download resets the counter (`download.cpp:92-97`);
  the engine has no such operation, so the theorem is about downloads whose URL stays.
- Downloads.Download.SchedBlock: waiting for the completion of the operation is not modelled, nor a call made on the
  task thread itself; the reply the operation gives is.
- CurlWrappers.RemoveIsComplete: the wait of at most thirty minutes is taken to end with the event.
- CurlWrappers.CurlRequests.Turn: entries and their events are told apart by the number of their adding instead of by
  shared pointers; handles are not null.
- MccManagers.MCCManager.Record: entries are values in the vector, as in the source; the host read from a connection
  string is not modelled.
- Messages.ReplyArrives: the version text is taken to hold no carriage return and not to make its field look like a
  content length.
- HttpParsers.HttpParser.OnData: after an exception nothing more is said about the parser than that more input fails
  again; the listener then drops the connection.
