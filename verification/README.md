# A verified model of commmon

commmon is a daemon that shares serial ports among TCP clients. This project models the parts of
it that carry the most state, and proves what they promise:

- **The streaming keyword filter** (`Matching`, `KeywordFilter`, `FilterTheorems`,
  `FilterPolling`). Received bytes arrive in chunks; a carry of the longest keyword's length
  minus one is kept between them; keyword lists may grow in mid-stream. The incremental search
  agrees with a naive search of the whole delivered stream.
- **Sessions and streaming tasks** (`Broadcast`, `ReadBuffer`, `Session`, `SessionLaws`,
  `Streaming`, `Agreement`, `Separation`, `RxStream`, `ReadStream`, `FilterStream`,
  `FilterCoverage`, `RestingSession`, `AddedFilters`, `CommandPath`, `RepeatedPushes`,
  `Subscriptions`, `SubscriptionStarts`, `StaleSessions`, `Resubscription`). Every client has a
  session and a task joined by a queue of at most 16 commands, and both read bounded broadcast
  channels. `Streaming` is a state machine whose events are the single steps of all these
  processes in any interleaving; the theorems hold in every reachable state.
- **The wire format** (`JsonText`, `Scanner`, `Framing`, `RxClient`, `RxDelivery`, `Misreads`,
  `NodeClient`, `Connection`). The daemon prints lines of JSON (strings escaped as in section 7
  of RFC 8259), the C++ client cuts lines and reads fields by substring search, and the Node
  client pairs answers with requests first in, first out.
- **The serial manager** (`SerialManager`, `SerialMaps`, `Deadlock`, `LogsAndTimers`,
  `TimedLogs`, `LogWindows`, `LogTask`, `LogFile`). Handlers take the locks `ports`, `logs` and
  a port's writer; background tasks read, log and time.
- **Log file names** (`SanitizeLabel`): the chain of rewrites that makes a label safe.

Objects that the source updates in place are classes here (`KeywordFilter.FilterState`,
`Session.ClientSession`, `NodeClient.DaemonClient`, `SerialMaps.Maps`) and its loops are methods
with loops; each is proved against a function on values, and the theorems are about these
functions. `Sequences` and `JsWhitespace` hold small definitions that the other modules share.

## What the proofs found

Where the code does something else than one would expect, the model follows the code. A lemma
shows an input or a run for which it does, and another says exactly when.

- A port closed and reopened by one client leaves the other clients' sessions as they were
  (`StaleSessions.StaleStateIsReachable`). Until such a client closes the port itself, its
  `read_port` no longer sees what arrives (`RestingSession.ArrivalIsReadIff`).
- Its `add_filter_rx` answers success, but the port's bytes are searched for the new keywords
  only if the filter in its task belongs to the current opening
  (`AddedFilters.AddFilterWorksIff`). The filter may be gone
  (`AddedFilters.FilterGoneIsReachable`) or still be there for the opening that ended
  (`AddedFilters.FilterOfOldOpeningIsReachable`).
- `read_port` stops draining at the first lag report: with more than 256 unread entries one read
  returns only what was buffered before (`ReadBuffer.LateReadIsEmpty`,
  `ReadBuffer.DrainCompleteIff`).
- Unsubscribing and subscribing again can push an entry twice
  (`Resubscription.EntryPushedTwice`): the new receiver starts when the request is handled, the
  old one goes on until its command is taken. Over a whole run, with any number of
  subscriptions, the entries pushed twice are those that two of them delivered
  (`Subscriptions.PushedAgainIff`), and without lag nothing is pushed twice if and only if no
  two of them read overlapping stretches (`Subscriptions.NothingAgainIff`); for two in a row, if
  and only if the old receiver had not got past the new one's start
  (`RepeatedPushes.NothingTwiceIff`). Within one subscription nothing repeats
  (`RxStream.SubscriptionStream`).
- `add_filter_rx` leaves out keywords that are there already, but only when a filter exists: the
  first request registers its list as it is (`SessionLaws.FirstAddFilterIff`).
- The C++ client takes some other notifications for received data, among them every hit of the
  keyword `rx_data` (`Misreads.KeywordRxDataIsMisread`, `Misreads.TakenForRxDataIff`). A control
  character other than tab, line feed and carriage return it reads back wrongly
  (`Scanner.BackspaceIsMisread`, `Scanner.ValueExactIff`).
- `start_log` lets go of `ports` before it takes `logs`, so a concurrent `close_port` can leave
  a log running on a closed port (`LogsAndTimers.LogOnClosedPort`). It takes a port closed
  within another handler's `start_log` or a log entered within another handler's close
  (`LogWindows.ApartLogsOpen`); step by step, `LogsAndTimers.LogsOpenIff` is exact.
- `start_log` with an empty stop keyword stops at the first entry, while `update_log` takes the
  empty keyword for none (`LogTask.EmptyKeywordStopsAtOnce`, `LogTask.EmptyInForceIff`). A stop
  keyword that the port delivers in two reads is not seen (`LogTask.SplitKeywordMissed`,
  `LogTask.StoppedIff`).
- Applied twice, `sanitizeLabel` can remove an underscore that its own cut left
  (`SanitizeLabel.CutBehindSeparator`, `SanitizeLabel.SanitizeStableIff`).
- PLAN.md:41 says a client receives from its connection on; the code subscribes it when it opens
  or first reads the port, and what came in before that is not read
  (`SessionLaws.FirstReadIsEmpty`).

## Main results

The table below lists these first, then what they rest on, and the facts about single steps
last.

- The keyword filter finds what a naive search finds, for any cut into chunks and with keywords
  added in mid-stream (`FilterTheorems.LateKeywordExact`); so do the notifications of every
  client in every run of the daemon (`FilterStream.NotifiedHitsExact`), and when the task keeps
  up they cover the port's whole stream (`FilterCoverage.HitsCoverChannel`) from the handling of
  the request on (`SubscriptionStarts.HitsSinceRequest`).
- Every command reaches the task once and in order (`CommandPath.TakenInOrder`), session and
  task agree in every reachable state (`Agreement.AlwaysAgree`), clients do not touch one
  another (`Separation.ClientIsolation`), and openings of a port are kept apart
  (`Separation.HitsNeverMixOpenings`, `Separation.NoReadFromBeforeClose`).
- What is pushed and what is read, in every run (`RxStream.SubscriptionStream`,
  `SubscriptionStarts.SubscriptionStartsNow`, `Subscriptions.PushedAgainIff`,
  `ReadStream.SessionReadIsRecent`, `ReadStream.SessionClearingReadsInOrder`), and exactly when
  a client of a reopened port still gets its data (`RestingSession.ArrivalIsReadIff`,
  `AddedFilters.AddFilterWorksIff`).
- Over the wire, the C++ client calls back with the printed fields
  (`RxDelivery.RxDataDelivered`) except for exactly stated misreadings (`Scanner.ValueExactIff`,
  `Misreads.TakenForRxDataIff`), and the Node client resolves each request with its own answer
  (`Connection.AnswersMatchRequests`).
- The serial manager never deadlocks (`Deadlock.NeverDeadlocked`), leaves no task or timer
  behind (`LogsAndTimers.NothingOrphaned`) and drops none that it should keep
  (`TimedLogs.WorkIsExact`), and logs what was received (`LogTask.LogIsStream`) until an entry
  holds the stop keyword (`LogTask.StoppedIff`).
- `sanitizeLabel` is stable exactly when its cut did not fall behind a separator
  (`SanitizeLabel.SanitizeStableIff`).

## Model

| member | source | states |
|---|---|---|
| `FilterTheorems.FixedListExact` | commmon/src/daemon.rs:309-360 | with a fixed list, for every way of cutting the bytes into chunks, each list entry reports exactly the naive search of the concatenation, in order, once each |
| `FilterTheorems.RunExact` | commmon/src/daemon.rs:234-239 | the same under any interleaving of chunks with growing keyword lists, from each entry's first offset on |
| `FilterTheorems.LateKeywordExact` | commmon/src/daemon.rs:357-359 | a keyword added in mid-stream is reported at an offset if and only if it lies there, ends after the addition and begins no earlier than the carry did |
| `FilterPolling.PollFilter` | commmon/src/daemon.rs:311-371 | the polling loop with its filter object: everything retained is put through the filter, entry by entry with its own timestamp, and afterwards every list entry has been reported at exactly the places where a naive search of all delivered bytes finds it from its first offset on; each hit has its list entry's keyword and, as context, the bytes around its place, at most 20 on each side |
| `FilterStream.NotifiedHitsExact` | commmon/src/daemon.rs:309-376 | end to end, in any run of the whole daemon: from an AddFilter taken to the next one or the removal, the filter_hit notifications a client is sent for the port tell, for each list entry, exactly the places where a naive search finds the keyword in the bytes delivered to that filter, as it is or was last, in order and once each; the bytes come from one opening of the port |
| `FilterCoverage.HitsCoverChannel` | commmon/src/daemon.rs:309-376 | in any run of the whole daemon: if and only if the task never polls the filter with more than 256 unread, the filter is given every entry from the AddFilter's receiver on up to where it reads, to the end of the opening if the task has dropped it; the filter_hit notifications are then, for each of the AddFilter's keywords, the naive search of all these bytes |
| `SubscriptionStarts.HitsSinceRequest` | commmon/src/daemon.rs:498-619 | in any run, from the handling of an accepted filter_rx or first add_filter_rx: as long as the task is not lapped, the filter_hit notifications are, for every non-empty keyword of the request, the naive search of all bytes that have come in since |
| `Agreement.AlwaysAgree` | commmon/src/daemon.rs:212-242 | in every reachable state, once the queued commands are applied, the task's receivers and filters are among the session's and keyword lists agree; they are all of them as long as no receiver answered `Closed` |
| `Agreement.AlwaysExact` | commmon/src/daemon.rs:309-372 | in every reachable state the history of each filter of each client agrees with the naive search of the bytes delivered to it |
| `CommandPath.TakenInOrder` | commmon/src/daemon.rs:205-243 | in any run, the commands sent by a client's handler are those its task has taken, followed by those under way: each taken once, in order |
| `Separation.ClientIsolation` | PLAN.md:36-41 | deleting every other client's session and task steps from a run changes nothing for a client: session, task, replies, notifications |
| `Separation.HitsNeverMixOpenings` | commmon/src/daemon.rs:221-230 | no filter hit of any client combines bytes of two openings of a port, and each carries the timestamp of the entry that brought the match's last byte |
| `Separation.NoReadFromBeforeClose` | commmon/src/daemon.rs:430-447 | after a client closed a port, none of its reads returns an entry from before, however the port is reopened and by whom |
| `RxStream.SubscriptionStream` | commmon/src/daemon.rs:264-307 | while a subscription lasts, in any run of the whole daemon, the client's rx_data show entries of the port's channel in order and once each, all of them if and only if the task never polls with more than 256 unread, and a receiver is dropped only when read out |
| `SubscriptionStarts.SubscriptionStartsNow` | commmon/src/daemon.rs:450-479 | in any run, the k-th subscription the task took is the k-th accepted subscribe_rx; every entry pushed for it came in after that was handled, on the opening of that moment, and without lag all of those up to where it reads are pushed |
| `Subscriptions.PushedAgainIff` | commmon/src/daemon.rs:214-220 | in any run, with any number of subscriptions of a client to a port: what it is pushed is what the subscriptions' receivers delivered, one after another, and an entry is pushed twice if and only if two of them delivered it |
| `Subscriptions.NothingAgainIff` | commmon/src/daemon.rs:464-493 | without lag, nothing is pushed twice in the run if and only if no two of the subscriptions read overlapping stretches of one channel |
| `ReadStream.SessionReadIsRecent` | commmon/src/daemon.rs:82-127 | in any run of the whole daemon, while the session keeps up, its read_port is answered exactly the last min(200, n) of the n entries since it subscribed or last read clearing |
| `ReadStream.SessionClearingReadsInOrder` | commmon/src/daemon.rs:103-127 | in any run, lag or not, and however clearing reads and others alternate, the answers to the clearing ones are together a strictly ascending part of what the channel was sent |
| `RestingSession.ArrivalIsReadIff` | commmon/src/daemon.rs:82-127 | whatever happened to the ports since the session's last step, an entry that came in meanwhile is part of its next read if and only if the session's receiver is of the current opening, at most 256 entries are unread, and the entry is among the last 200 |
| `AddedFilters.AddFilterWorksIff` | commmon/src/daemon.rs:546-619 | after a successful add_filter_rx, a chunk that arrives is searched for the new keywords, once the task has taken its commands and polled, if and only if the session had no filter or the task's filter is of the port's current opening |
| `AddedFilters.FilterRxWorks` | commmon/src/daemon.rs:498-544 | after a successful filter_rx, every chunk that arrives is searched for every requested keyword that is not empty, once the task has taken its commands and polled |
| `Scanner.ExtractsOwnValue` | sdk/cpp/commmon_rx_client.cpp:143-171 | for any notification line, with its keys in any order, extracting a key reads that key's own value |
| `Scanner.ValueExactIff` | sdk/cpp/commmon_rx_client.cpp:156-163 | the value read is the value printed if and only if its only control characters are tab, line feed and carriage return |
| `Misreads.TakenForRxDataIff` | sdk/cpp/commmon_rx_client.cpp:125-127 | a line is taken for rx_data if and only if it is one, or a value is rx_data or ends with a quote character and rx_data |
| `RxDelivery.StreamDelivered` | sdk/cpp/commmon_rx_client.cpp:95-141 | end to end: for any cut of the daemon's lines into chunks, what is called back is, line by line, what each line is owed: one callback with the scanner's reading of its own fields for an rx_data line, and what the substring test makes of any other |
| `RxDelivery.RxDataDelivered` | sdk/cpp/commmon_rx_client.cpp:95-141 | when no other line looks like received data and the fields have no odd control characters, the callbacks are one per rx_data line, in order, with the fields that were printed, and no others |
| `Connection.AnswersMatchRequests` | mcp-server/index.js:71-130 | for any interleaving of answers and notifications and any chunks, the i-th send is resolved with the daemon's answer to the i-th request; sent equals resolved plus pending |
| `Connection.CloseResolvesAll` | mcp-server/index.js:113-120 | after the close every request was resolved exactly once, by its own answer or the error |
| `Deadlock.NeverDeadlocked` | commmon/src/serial.rs:517-519 | in every reachable state, for any number of concurrent handlers, if one has not finished then one can step |
| `Deadlock.AllCanFinish` | commmon/src/serial.rs:209-267 | from every such state all handlers can be run to their end |
| `LogsAndTimers.NothingOrphaned` | commmon/src/serial.rs:294-361 | under any interleaving every running read task is owned by an open port, every log task is listed or cancelled, every armed timer is the one its log holds |
| `TimedLogs.WorkIsExact` | commmon/src/serial.rs:294-361 | under any interleaving, an open port's read task and a listed log's task run unless they ended by themselves, a log's timer is armed for its token unless it fired, and a listed log's token is cancelled if and only if a timer for it fired |
| `LogsAndTimers.LogsOpenIff` | commmon/src/serial.rs:287-294 | every log's port is open throughout a run if and only if each insertion and removal met its guard |
| `LogWindows.ApartLogsOpen` | commmon/src/serial.rs:209-225 | it holds in every run in which no port is closed between another start_log's check and its entry, and no log is entered between another close's dropping of the logs and its removal of the ports |
| `LogTask.LogIsStream` | commmon/src/serial.rs:476-512 | a log whose receiver is never lapped is exactly the lines of the entries received since start_log, up to some entry; after a keyword notification that entry contains the keyword |
| `LogTask.StoppedIff` | commmon/src/serial.rs:487-500 | with one keyword throughout, and whatever lag, cancel and end there are, the keyword stops the log if and only if a single entry's text is something, the keyword, something, before any cancel or end |
| `SanitizeLabel.SanitizeIsJoinedWords` | mcp-server/index.js:145-154 | the chain of rewrites gives the words of the label, in order, joined by single underscores, cut to 40 code units |
| `SanitizeLabel.SanitizeStableIff` | mcp-server/index.js:153 | applied twice it changes nothing more if and only if the cut did not fall behind a separator |
| `Matching.FindSubslice` | commmon/src/daemon.rs:49-54 | the first offset at which a needle lies, none for an empty needle or when it lies nowhere |
| `Matching.PositionsExact` | commmon/src/daemon.rs:322-354 | the reference: a naive search lists exactly the offsets where the needle lies, overlaps included, ascending |
| `KeywordFilter.MaxCarry` | commmon/src/daemon.rs:38-45 | the carry is long enough to hold any keyword but its last byte, and no longer than the longest keyword needs |
| `KeywordFilter.SearchKeyword` | commmon/src/daemon.rs:323-354 | the innermost loop, restarted one past each match, reports every match of a keyword that reaches past the carry, each with its keyword, the chunk's timestamp and the bytes around it |
| `KeywordFilter.SearchAll` | commmon/src/daemon.rs:322-355 | the loop over the list reports keyword entry by keyword entry, equal entries each on their own |
| `KeywordFilter.FilterState.Receive` | commmon/src/daemon.rs:315-360 | one chunk: the hits, the new carry, and that the carry stays the end of the delivered stream |
| `FilterTheorems.ChunkingIrrelevant` | commmon/src/daemon.rs:317-320 | two cuts of the same bytes report the same offsets |
| `FilterTheorems.ReportedWithLastByte` | commmon/src/daemon.rs:329-330 | a match is reported by the chunk that brings its last byte, and by no other |
| `FilterTheorems.EntryKept` | commmon/src/daemon.rs:572-585 | growing the list changes neither keyword nor first offset of the entries that were there |
| `FilterTheorems.CarryIsTail` | commmon/src/daemon.rs:357-359 | with a fixed list the carry is the end of everything delivered, as long as the longest keyword less one byte |
| `FilterTheorems.LateKeywordAfterChunks` | commmon/src/daemon.rs:357-359 | so after any chunks an added keyword is reported at the occurrences that end after the addition and begin at most that much before it |
| `FilterTheorems.ReportedInOrder` | commmon/src/daemon.rs:322-355 | one chunk reports list entry by list entry, each from front to back |
| `FilterTheorems.HitShowsStream` | commmon/src/daemon.rs:331-344 | a hit carries the timestamp of the chunk that brought the match's last byte; its context is the match with up to 20 bytes on each side, cut at the carry and at the end of the chunk |
| `Broadcast.PollAll` | commmon/src/daemon.rs:264-303 | the inner polling loop ends, reads everything unread that is retained, and reports a close only after that |
| `Broadcast.ReceiverAccounts` | commmon/src/daemon.rs:264-307 | in any run, deliveries are in order and without duplicates; deliveries and reported gaps add up to everything sent up to the cursor; a receiver is dropped only when read out |
| `Broadcast.NothingMissedIff` | commmon/src/serial.rs:13 | nothing is missed if and only if no poll comes with more than 256 entries unread |
| `Broadcast.ReadOutDrops` | commmon/src/daemon.rs:297-307 | a receiver polled once more than it has unread entries has read everything out and is dropped if and only if its channel is closed |
| `ReadBuffer.DrainLoop` | commmon/src/daemon.rs:82-92 | push, drop the oldest beyond 200, stop at any error |
| `ReadBuffer.DrainCompleteIff` | commmon/src/daemon.rs:85-90 | a drain brings the buffer up to date if and only if at most 256 entries were unread |
| `ReadBuffer.LateReadIsEmpty` | commmon/src/daemon.rs:85 | after more than 256 arrivals the first read answers nothing |
| `ReadBuffer.SecondDrainCatchesUp` | commmon/src/daemon.rs:85-90 | a drain that was behind leaves the buffer as it was, and the next one brings in everything retained |
| `ReadBuffer.ReadIsRecent` | commmon/src/daemon.rs:103-127 | while the reader keeps up, a read returns exactly the last min(200, n) of the n entries since the subscription or the last clearing read |
| `ReadBuffer.ClearingReadsInOrder` | commmon/src/daemon.rs:103-127 | even with lag, the clearing reads together are an in-order part of what was sent, without duplicates |
| `Session.ClientSession.Ensure` | commmon/src/daemon.rs:94-101 | subscribe once, at the end of the port's current channel, with an empty buffer |
| `Session.ClientSession.Read` | commmon/src/daemon.rs:103-127 | drain, answer the buffer, clear it if asked; an error without a buffer |
| `Session.ClientSession.SubscribePort` | commmon/src/daemon.rs:450-479 | refused when the port is not open or already subscribed; otherwise recorded, and one Subscribe sent with a receiver at the end of the channel of the current opening |
| `Session.ClientSession.UnsubscribePort` | commmon/src/daemon.rs:481-496 | refused when not subscribed; otherwise forgotten and sent on |
| `Session.ClientSession.SetFilter` | commmon/src/daemon.rs:498-544 | an old filter is overwritten with a new receiver at the end of the current channel; list and command hold every requested keyword that is not empty, in order, duplicates included |
| `Session.ClientSession.AddKeywords` | commmon/src/daemon.rs:546-619 | with a filter, merge and send the whole list; without one, register |
| `Session.MergeLoop` | commmon/src/daemon.rs:572-577 | the loop that appends what is not there yet |
| `Session.Merged` | commmon/src/daemon.rs:572-577 | the old keywords first and unchanged, then exactly the requested ones that are not among them, none of them twice |
| `SessionLaws.MergedInOrder` | commmon/src/daemon.rs:572-577 | and these stand in the order in which the request first names them |
| `Session.ClientSession.DropFilter` | commmon/src/daemon.rs:621-636 | refused without a filter; otherwise forgotten and sent on |
| `SessionLaws.MergedIsAppendIff` | commmon/src/daemon.rs:572-577 | merging appends the whole list if and only if everything in it is new |
| `SessionLaws.AddFilterTwice` | commmon/src/daemon.rs:570-590 | with a filter in place, two add_filter_rx requests are one with both lists |
| `SessionLaws.FirstAddFilterIff` | commmon/src/daemon.rs:593-606 | without one, they are if and only if the second list brings nothing twice |
| `Session.NewReceiver` | commmon/src/serial.rs:267-270 | a receiver exactly for an open port, at the end of the channel of its current opening |
| `Streaming.StepOk` | commmon/src/daemon.rs:207-382 | every step of every process keeps all receivers, of sessions, queues and tasks, pointing into openings of their own port |
| `FilterCoverage.RunTrails` | commmon/src/daemon.rs:309-376 | until the next AddFilter or RemoveFilter for the port, in any run, the filter's part refines a single receiver of the channel |
| `RxStream.RunFollows` | commmon/src/daemon.rs:261-307 | the task's part of a run refines a single receiver of the channel |
| `CommandPath.SentFits` | commmon/src/daemon.rs:450-636 | every command sent in a run fits the request handled: a Subscribe or AddFilter comes with a receiver at the end of the port's channel of that moment, a list holds what was requested, and removals are of what the session has |
| `SubscriptionStarts.NothingOldPushed` | commmon/src/daemon.rs:464-473 | no rx_data ever shows an entry from before the subscribe_rx request it was pushed for |
| `SubscriptionStarts.FilterStartsNow` | commmon/src/daemon.rs:522-539 | the AddFilter a task takes begins at the end of the port's channel at the moment of its request, with the requested list |
| `AddedFilters.FilterRxRegisters` | commmon/src/daemon.rs:498-544 | whatever the port had before, its filter is then new, begins at the end of the current opening, and lists the non-empty requested keywords in order, duplicates kept |
| `Session.NonEmptyIsRequest` | commmon/src/daemon.rs:505-513 | leaving out the empty keywords keeps every other one, as often and in the order in which it was requested |
| `AddedFilters.FilterGoneIsReachable` | commmon/src/daemon.rs:374-376 | another client's close and reopen reaches a state where the task has no filter while the session lists one |
| `AddedFilters.FilterOfOldOpeningIsReachable` | commmon/src/daemon.rs:366-376 | and one where the task still holds the filter, of the opening that ended |
| `StaleSessions.StaleStateIsReachable` | commmon/src/daemon.rs:374-376 | another client's close and reopen reaches a state where an idle client's receiver is of an old opening |
| `RepeatedPushes.PushedTwiceIff` | commmon/src/daemon.rs:214-220 | across one unsubscription and one new subscription, in any run, an entry is pushed twice if and only if both receivers delivered it, and it then lies from the new one's start to where the old one was when its Unsubscribe was taken |
| `RepeatedPushes.NothingTwiceIff` | commmon/src/daemon.rs:464-493 | when neither is lapped and the new one has caught up, nothing is pushed twice if and only if the old receiver had not got past where the new one starts |
| `Resubscription.EntryPushedTwice` | commmon/src/daemon.rs:467-491 | subscribe, unsubscribe, subscribe again: a run in which one entry is pushed twice |
| `JsonText.EscapeGuardsQuotes` | commmon/src/protocol.rs:49-53 | every quote inside a printed string has a backslash before it |
| `JsonText.UnescapeEscape` | commmon/src/protocol.rs:49-53 | a reader that follows section 7 of RFC 8259 gets back every string that is printed |
| `JsonText.EscapeIsShortest` | commmon/src/protocol.rs:49-53 | no text that a conforming reader reads as the string is shorter than the printed one |
| `JsonText.NotificationIsOneLine` | commmon/src/daemon.rs:280-284 | a printed notification has no control character, so it is one line, from brace to brace |
| `Scanner.ExtractJsonString` | sdk/cpp/commmon_rx_client.cpp:143-171 | the extraction method computes the scanner's reading of the text behind the first match of the pattern, and nothing without a match |
| `Scanner.ScanLoop` | sdk/cpp/commmon_rx_client.cpp:150-170 | its loop reads up to the closing quote and decodes a backslash and one character |
| `Scanner.MatchIsOwnKey` | sdk/cpp/commmon_rx_client.cpp:146-148 | inside a printed member the key pattern matches only at the member's own key, whatever bytes the value holds |
| `Scanner.ScanEscaped` | sdk/cpp/commmon_rx_client.cpp:152-169 | scanning an escaped string undoes the escaping, apart from the escapes the scanner does not know |
| `Scanner.BackspaceIsMisread` | sdk/cpp/commmon_rx_client.cpp:156-163 | a backspace is read back as the letter b |
| `RxClient.TakeLines` | sdk/cpp/commmon_rx_client.cpp:106-120 | the inner loop takes every complete line and keeps the rest |
| `RxClient.RecvLoop` | sdk/cpp/commmon_rx_client.cpp:95-122 | for any chunks, the callbacks are those of the complete lines of the joined text, and the partial last line is held back |
| `RxClient.ParseNotification` | sdk/cpp/commmon_rx_client.cpp:124-141 | one callback with four fields for a line that looks like rx_data, none for another |
| `RxDelivery.NoticeReadableIff` | sdk/cpp/commmon_rx_client.cpp:125-127 | another notification does not look like received data if and only if no value is rx_data or ends with a quote character and rx_data |
| `Misreads.KeywordRxDataIsMisread` | sdk/cpp/commmon_rx_client.cpp:125-127 | every hit of the keyword rx_data is taken for received data |
| `NodeClient.DaemonClient.OnLine` | mcp-server/index.js:75-108 | notifications are filed for subscribed ports, an answer resolves the oldest request, the rest is ignored |
| `NodeClient.DaemonClient.OnData` | mcp-server/index.js:71-110 | a chunk handles exactly the lines it completes and keeps the rest |
| `NodeClient.BuffersKeepNewest` | mcp-server/index.js:83-101 | after any lines, a subscribed port's buffers hold the newest 500 of its notifications, in order, and no port is added |
| `Connection.RequestsFramed` | commmon/src/daemon.rs:384-401 | the daemon's request loop sees exactly the request lines that the Node client sent, none of which is blank |
| `SerialManager.ScriptsOrdered` | commmon/src/serial.rs:518-519 | every handler takes its locks in the order ports before logs, ports before a port's writer, and gives all of them back |
| `SerialMaps.Maps.StopAllLogs` | commmon/src/serial.rs:546-553 | stopping the logs one after another stops all of them, in whatever order |
| `SerialMaps.Maps.CloseAllPorts` | commmon/src/serial.rs:556-560 | closing the ports one after another closes all of them |
| `Deadlock.StepLeavesLess` | commmon/src/serial.rs:209-267 | every step of a handler leaves fewer steps to do, early error returns included |
| `LogsAndTimers.OneTimerPerLog` | commmon/src/serial.rs:395-415 | no two armed timers would cancel the same log |
| `TimedLogs.StartLogTimer` | commmon/src/serial.rs:329-347 | in any run, when start_log enters its log the task runs, and exactly one armed timer would cancel it if a duration was given, none otherwise |
| `TimedLogs.UpdateLogTimer` | commmon/src/serial.rs:393-415 | update_log with a duration leaves exactly one armed timer for the log, a new one; without a duration it leaves everything, the old timer included |
| `TimedLogs.TimerStopsLog` | commmon/src/serial.rs:336-338 | when a log's timer fires, the log's token is cancelled and no timer is left for it |
| `TimedLogs.TimedIff` | commmon/src/serial.rs:329-347 | in any run, a listed log has a timer if and only if it was started with a duration or updated with one |
| `LogsAndTimers.SerialLogsOpen` | commmon/src/serial.rs:209-225 | every log's port stays open in every run that takes commands one at a time |
| `LogsAndTimers.LogOnClosedPort` | commmon/src/serial.rs:289-294 | a run in which start_log and close_port interleave reaches a log on a closed port |
| `LogTask.Run` | commmon/src/serial.rs:476-512 | the file holds the delivered entries up to and including the first that contains the keyword in force anywhere in its text, or up to the cancel or close; one notification if that entry ended it, none otherwise |
| `LogTask.ContainsIff` | commmon/src/serial.rs:489 | the search finds the keyword in exactly the texts that are something, the keyword, something |
| `LogTask.InForceIff` | commmon/src/serial.rs:381-388 | a keyword is in force if and only if it was the last one given, by an update unless it is empty, or by start_log |
| `LogFile.LogReadBack` | commmon/src/serial.rs:480-484 | a log file reads back as its entries, stamp and text of each, in order, if no stamp has a closing bracket and no line feed came with the data |
| `LogTask.SplitKeywordMissed` | commmon/src/serial.rs:487-489 | a stop keyword cut between two entries goes unseen |
| `LogTask.EmptyKeywordStopsAtOnce` | commmon/src/serial.rs:311-315 | a log with the empty keyword in force ends with its first entry |
| `SanitizeLabel.SanitizedIsSafe` | mcp-server/index.js:145-154 | at most 40 units, no forbidden character, no white space, no two adjacent underscores, none in front |
| `SanitizeLabel.SanitizeTwice` | mcp-server/index.js:152-153 | a second time removes at most the underscore that the cut left at the end |
| `SanitizeLabel.CutBehindSeparator` | mcp-server/index.js:153 | a first word of 39 units and another one: the cut leaves an underscore that a second application removes |
| `SessionLaws.FirstReadIsEmpty` | commmon/src/daemon.rs:94-101 | a session's first read of a port answers nothing that came in before the session subscribed |
| `SessionLaws.RefusedOrSent` | commmon/src/daemon.rs:450-636 | a refused command changes and sends nothing; an accepted one sends exactly one command, for its port, and leaves other ports' subscriptions alone |
| `SessionLaws.SubscribedOnce` | commmon/src/daemon.rs:460-462 | after a subscription every further one is refused, however the port was reopened |
| `SessionLaws.UnsubscribeUndoes` | commmon/src/daemon.rs:481-496 | unsubscribing restores the session from before the subscription |
| `SessionLaws.UnfilterUndoes` | commmon/src/daemon.rs:621-636 | removing a filter restores the session from before its first registration |
| `SessionLaws.AcceptedIff` | commmon/src/daemon.rs:450-636 | when each of the five dispatched commands is accepted |
| `SessionLaws.ReadAnsweredIff` | commmon/src/daemon.rs:103-127 | a read is answered if and only if the session has a receiver for the port |
| `SessionLaws.ClosedForgets` | commmon/src/daemon.rs:129-134 | after a close there is nothing to read, unsubscribe or unfilter, and a subscription is accepted as the first |
| `RxClient.TrimStrips` | sdk/cpp/commmon_rx_client.cpp:110-114 | trimming takes blanks and carriage returns off both ends, and nothing else |
| `RxClient.CStringIsFront` | sdk/cpp/commmon_rx_client.cpp:104-105 | what a C string keeps is what stands before the first NUL |
| `NodeClient.JsTrimStrips` | mcp-server/index.js:75 | trim takes the white space off both ends, and nothing else |
| `NodeClient.NothingWithoutPort` | mcp-server/index.js:85-95 | a notification that names no port is filed nowhere |
| `SerialMaps.AnsweredIff` | commmon/src/serial.rs:134-415 | when each action succeeds; a refused one changes nothing |
| `SerialMaps.ListedAfter` | commmon/src/serial.rs:134-560 | which ports are open and which logs listed after each |
| `SerialMaps.CloseUndoesOpen` | commmon/src/serial.rs:134-224 | opening and closing leaves ports and read tasks as they were |
| `LogTask.LogUnique` | commmon/src/serial.rs:476-512 | the file's length, its contents and the notification follow from the events: the specification leaves no choice |
| `LogTask.EmptyInForceIff` | commmon/src/serial.rs:381-388 | the empty keyword is in force if and only if start_log was given it and no update has given a keyword argument since |
| `SerialMaps.Maps.OpenPort` | commmon/src/serial.rs:134-201 | refused when open or when opening fails; otherwise entered with its read task |
| `SerialMaps.Maps.ClosePort` | commmon/src/serial.rs:218-224 | removed and its read task aborted |
| `SerialMaps.Maps.StartLog` | commmon/src/serial.rs:294-361 | refused when a log runs; otherwise entered with its running task and, exactly if a duration is given, an armed timer for that task's token |
| `SerialMaps.Maps.UpdateLog` | commmon/src/serial.rs:393-415 | a new duration aborts the old timer and arms a new one for the same token; without one timers stay as they are |
| `SerialMaps.Maps.StopLog` | commmon/src/serial.rs:445-452 | the entry is removed, its token cancelled, its timer aborted |
| `KeywordFilter.FilterState.constructor` | commmon/src/daemon.rs:221-230 | a new filter has an empty carry and has seen nothing |
| `KeywordFilter.FilterState.SetKeywords` | commmon/src/daemon.rs:234-239 | replacing the list keeps the carry |
| `Session.ClientSession.constructor` | commmon/src/daemon.rs:73-80 | an empty session |
| `Session.ClientSession.Forget` | commmon/src/daemon.rs:129-134 | a close forgets the port in all four maps |
| `NodeClient.DaemonClient.constructor` | mcp-server/index.js:50-58 | nothing pending, nothing buffered |
| `NodeClient.DaemonClient.Send` | mcp-server/index.js:123-130 | a request is put at the end of the pending ones |
| `NodeClient.DaemonClient.OnClose` | mcp-server/index.js:113-120 | every pending request is resolved with the error, in order |
| `NodeClient.Pushed` | mcp-server/index.js:86-90 | the newest 500 are kept |

## Left out

- Opening devices, sockets, files, task scheduling and sleeping: they appear as events that may happen at any time (a chunk arrives, a timer fires, an open fails). A log file that cannot be created, a failed write to a client and a streaming task that has ended with its connection are not modelled.
- The tokio channels, serde_json and hex: stated as small models (everything sent and one cursor per receiver, a queue, the escaping of section 7 of RFC 8259).
- UTF-8: keywords, chunks and lines are sequences of bytes or characters; lossy decoding of received data to text is a parameter. The Node client starts from decoded text because it decodes each chunk by itself.
- Time stamps: any text. Entries carry a running number as history, so that theorems can speak of before and after.
- The order in which one round of the streaming task visits its maps: every interleaving of the single polls is allowed.
- The notification channel for `log_stopped`: a timer that is not aborted sends its own notification even after the keyword stopped the log; only the keyword's notification is modelled.
- Request arguments and message texts: requests are structured values, answers are refused, done or entries. What a JSON line means to the Node client is a parameter (`Kind`).
- The streaming task's maps are values in the state machine, not fields of a class: its steps interleave with those of other processes, which a method cannot do. The filter that each holds is also a class.
- `SerialManager` handlers are scripts on values for the same reason; the bodies between the locks are methods of `SerialMaps.Maps`.
- Waiting for a log task while holding `logs` is one step that always ends: the source bounds it by one second.
- `Connection.RequestsFramed`: the Node client never sends a blank line, so the request loop's skipping of blank lines is in the model but never taken; other clients that send blank lines are not modelled.
- The Node client's reconnection, and a late close event of an old socket: one connection is modelled. Notifications for a port the tool has not subscribed yet are dropped, as in the source.
- The REPL, the monitor page, the C# and Rust clients, the install scripts and starting or killing the daemon: little state of their own.
