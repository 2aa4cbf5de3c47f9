# Verification model of agentqueue

agentqueue delivers messages to AI coding-agent sessions. Each target has a
directory with `pending/`, `claimed/` and `done/`; a message moves between them
by atomic renames. Beside them a small ledger, `notification.json`, records
which wake was sent to the host and whether a receiver has observed it. Several
processes share all this with one OS lock around the ledger and none around the
renames.

This project states what that design promises and proves it, under the
assumptions listed below, for every run and interleaving, with crashes between
any two operations. Where a promise fails, it gives the run that breaks it and
the exact condition under which it holds.

## How it is laid out

- `MailFiles`, `Ledgers`, `Order`: the directories, the ledger with every
  decision taken on it, and the order of file names. Both views below use them,
  so a rule is written once.
- `Protocol`: any number of running calls as a transition system. One step is
  one rename, scan, file read, ledger write, lock or unlock, host call, crash or
  clock tick. A history records what happened and is never read by a step.
- `Conservation`, `Acquisition`, `Exclusion`, `Wakes`, `Identities`, `Hints`,
  `Leases`, `Attempts`, `LegacyDedup`, `Reads`, `Acknowledging`: theorems over
  all runs of `Protocol`.
- `Runs`, `Witnesses`, `LegacyRuns`: building runs, and the runs that show where
  a promise ends.
- `Mailbox`: the same operations as programs on an object. Between any two file
  operations other processes may publish, claim or finish items, as an arbitrary
  `schedule` says, and any read of a listed file may fail, as `faults` says.
  Other processes leave the ledger alone while a notify or receive runs, which
  is what `Exclusion` proves of the lock.
- `Agreement`: a call of `Protocol` that runs alone does what the program in
  `Mailbox` does.
- `Flight`, `FlightMachine`: whole drains, and the refinement of the programs to
  a machine that is idle, has a hint queued, or is being drained.
- `Text`, `Paths`, `AddressIndex`, `AddressRaces`: path segments and the index
  from working directory to sessions.
- `PiDrain`: the Pi extension's asynchronous drain loop.
- `Items`, `Shell`: ids, targets and quoting.

## What is assumed

- Item ids, process ids and random notice identities are fresh; a digest
  identity never equals a random one. A pushed file is not rewritten.
- A rename, a directory scan, a file read and a ledger write are atomic. The
  lock has one holder and is released when its holder ends or crashes. The clock
  does not go back. Times are whole milliseconds.
- One target value per directory. A file is either readable or undecodable.
- The host is arbitrary: each call is answered queued, written, deferred,
  failed, uncertain or with an invalid receipt, or the caller crashes.
- In `Protocol` any operation of a call may fail, and a cancelled context shows
  as a failing operation. A listing leaves out a file it fails to read and goes
  on, as queue.go:300-306 does. In `Mailbox` reads of listed files and ledger
  writes may fail and a receive may be cancelled; its renames and scans work.
- In the drain loop, the watcher owes an event after each arrival; several
  arrivals may share one.

## Where documentation and code differ

The model follows the code.

- address.go:56-59 calls the directory segment collision-free. It is a tail of
  80 characters and a 64-bit hash; lookups are right because they check each
  address, and the proofs use no property of the hash.
- hookserve/hookserve.go:147 says hooks claim with `TakeNext`. They claim with a
  receive that shares the notification lock.
- The README of agentqueue bounds ambiguous retries to a 30-second interval. The
  interval is kept between reservations.

## Model

| member | source | states |
|---|---|---|
| Conservation.BodiesAreConserved | queue.go:210-388 | At every moment of every run each pushed id has exactly one file among pending, claimed and done with its published content, done holds exactly the acknowledged ids, and between any two moments items only move forward. |
| Acquisition.EachBodyReturnedAtMostOnce | queue.go:312-388 | Over any interleaving of takes, receives, acks and crashes no id is returned twice, every returned body is the published one, and no id is acknowledged twice. |
| Acquisition.ClaimedBodiesAreReturned | receive.go:72-96 | A call about to return, also one cancelled in mid-batch, holds exactly the ids it renamed to claimed, except ids another process finished meanwhile and one whose file could not be read. |
| Acquisition.BodyOrError | cmd/agentqueue/main.go:445-461 | A receive limited to one item never returns a body together with an error, and take and take --next return one body exactly when they succeed; `wait --take` relies on it when it prints item 0. |
| Exclusion.LockDiscipline | notifications.go:87-102 | At most one call is between lock and unlock, what it read of the ledger is still what is stored, and each of its pending writes is a legal successor of the stored ledger, whatever others do or where they crash. |
| Exclusion.EveryCallCanStep | notifications.go:87-102 | No reachable call is stuck: each can take its next step, except that one waiting for the lock needs it free. |
| Wakes.ClosedFlightMissesNothing | receive.go:54-95 | No lost wake: whenever the ledger is `received`, every id for which a notify has returned success is out of pending, or the call that closed the flight failed to read its file; for all host answers, receivers, raw consumers and crashes. |
| Wakes.ForwardScanIsSound | notifications.go:118-142 | Notify of a readable item published before the call began returns not-found only if its own read of the listed file failed, however others claim and finish it between the reads of pending, claimed and done. |
| Reads.MissedReadsFailed | queue.go:288-308 | Whatever a listing, a closed flight or a host call has on record as missed goes back to a read of a readable listed file that failed earlier in the run. |
| Reads.ReadWakesAreNotLost | receive.go:54-95 | No wake is lost for an item no listing failed to read. |
| Reads.MissingMeansUnread | notifications.go:118-142 | If notify reports a published readable item missing, its own listing failed to read it. |
| Reads.NotifyMissesExactly | notifications.go:133-142 | A notify that looks in claimed and then done reports its item missing exactly when the item was pending at the first look and is not done at the second. |
| Reads.ReadIdsAreNotResubmitted | notifications.go:122-222 | In legacy runs an item no listing failed to read causes no host call once an earlier one covered it. |
| Witnesses.WakeCanBeLost | receive.go:54-71 | A run in which one failing read lets a drain close the flight over a readable item whose notify succeeded. |
| Witnesses.NotifyCanMiss | notifications.go:118-142 | A run in which one failing read makes notify report a readable pending item missing. |
| Identities.ObservedIsNeverResent | notifications.go:179-196 | An identity a receiver has observed is on no later submission of the run, across retries, lease expiry and switches between legacy and protocol-2 addresses. |
| Identities.DeadStaysDead | receive.go:44-71 | An identity that was superseded or closed never becomes the open one again. |
| Identities.DeadNoticeIsInert | receive.go:47-53 | A receive for such an identity, at any later time, returns at once without a body and changes neither ledger nor files. |
| Identities.SupersededUnobserved | notifications.go:179-196 | A reservation drops an identity nobody has observed exactly when the address is not at protocol 2 or the last attempt was taken as delivered; otherwise it keeps the identity. |
| Hints.AtMostOneUnobservedHint | notifications.go:149-225 | With an address that stays at protocol 2 and a host that only queues or fails, all identities given to the host and not yet observed are one identity, and a receive for it would be accepted, including after crashes between reservation and receipt. |
| Hints.HintsAreBounded | notifications.go:104-152 | In such runs recorded queued receipts, and distinct identities given to the host, never exceed one plus flights closed plus leases expired, however many automatic receives interleave. |
| Hints.HostCallsAreBounded | notifications.go:104-225 | With a host that queues every hint, host calls never exceed one plus flights closed plus leases expired plus the calls whose receipt was never recorded. |
| Leases.LeasesAreRecorded | receive.go:59-71 | While a flight is being drained its lease ends 300000 ms after the listing of the last accepted non-empty drain. |
| Leases.RenewedFlightAbsorbs | notifications.go:104-152 | From any moment at which a flight is active and every notify that has read the address found protocol 2, while the address is at protocol 2, accepted non-empty drains are listed less than five minutes apart and the flight is not closed, no notify calls the host and the flight stays active; before that moment the address may have been anything. |
| Leases.RenewedFlightAbsorbsThroughout | notifications.go:104-152 | The same, with nothing asked of the running calls, when the address was at protocol 2 all along. |
| Attempts.AmbiguousAttemptsAreSpaced | notifications.go:160-225 | After a host call with no definite result on record whose identity was not observed in between, the next host call comes at least 30 s later, less the delay between the first call and its own reservation; reservations are always 30 s apart. |
| Attempts.EverySecondCallWaits | notifications.go:160-225 | Delays do not add up: if such a call follows a call, the one after it comes at least 30 s after that first call. |
| Attempts.AmbiguousAttemptsAreRare | notifications.go:160-225 | A window of length T holds at most T / 30 s + 1 reservations of such calls and at most T / 30 s + 2 of the calls themselves. |
| Witnesses.CallsCanBeClose | notifications.go:194-225 | The bound is exact: for every delay of up to 30 s there is a run with two host calls 30 s less that delay apart, one millisecond apart at a delay of 29999 ms. |
| LegacyDedup.CoveredIdsAreNotResubmitted | notifications.go:122-222 | Without protocol 2, and with attempts that end queued or written, every covered id still pending is on record as notified, and no host call was made for an id an earlier receipt had covered unless a listing between them failed to read it. |
| LegacyRuns.CoveredCanBeResubmitted | notifications.go:118-158 | A legacy run in which the listing of a second notify fails to read an item the first host call covered, and a third host call is made for that item. |
| LegacyDedup.KnownAfterExactly | notifications.go:153-222 | After a legacy attempt the next notify of an item is suppressed exactly when that attempt was queued or written and listed it: a failed, deferred or uncertain attempt forgets what earlier receipts covered. |
| Acknowledging.AckMissesExactly | queue.go:366-388 | An ack of a published item that was not claimed at the first look is refused exactly when the item was done already or left pending between the two looks. |
| Acknowledging.AckCanMiss | queue.go:377-387 | A concrete run in which an ack is refused while its item sits in claimed. |
| Ledgers.Limit | receive.go:36-38 | Limits from 1 to 100 are kept and any other becomes 20, so a batch is never unbounded and never empty by limit. |
| Mailbox.Queue.Push | queue.go:210-245 | Publishes a fresh id and changes nothing else. |
| Mailbox.Queue.Claim | queue.go:312-330 | Whatever interferes, afterwards the id is not pending; a returned item was nobody's when the call began and has its file's content; the call publishes and finishes nothing and claims no other id; and every id that left pending meanwhile is a rival's, is the one returned, or is corrupt, so a renamed body is never reported as not found. Alone, it succeeds exactly on readable pending items. |
| Mailbox.Queue.Take | queue.go:359-364 | Under any schedule an id that appears in done is one a rival finishes, and one that appears in claimed is a rival's or the asked one. Alone, the files afterwards are the old ones with just this id moved from pending to claimed, if it was pending; the call returns a body exactly if it was readable and reports it missing exactly if it was not pending. |
| Mailbox.Queue.TakeNext | queue.go:334-356 | Terminates for every finite schedule of other processes; empty means nothing is pending; what it claims was nobody's before, every older id that was pending at the start has left pending, and it claims no second id; alone, exactly the least pending id moves to claimed. |
| Mailbox.Queue.Ack | queue.go:368-388 | Under any schedule the reply and the files are decided by a look in claimed and then a look in pending, in that order; success puts an id into done that was not there, a refusal means it is not pending, and no other id is touched; alone, it succeeds exactly on claimed and pending ids and moves just that file. |
| Mailbox.Queue.ListPending | queue.go:248-308 | In id order, genuine content, and everything readable at the start that is still pending at the end is listed, but for at most as many items as reads failed; alone, exactly the readable pending items. |
| Mailbox.Queue.ClaimListed | receive.go:72-88 | Under any schedule: no claim is made at or after round `cancelAt`, so the batch has at most that many items, and no id listed from there on is claimed but by a rival; unless it fails, just the returned items are claimed; every older listed id has left pending; it fails on readable items only if it came to the round it was cancelled at. Alone, the batch is the first min(listed, limit, cancelAt) ids and it succeeds exactly if min(listed, limit) <= cancelAt. |
| Mailbox.Queue.Receive | receive.go:35-97 | A stale notice changes nothing; an accepted one renews the lease to 300000 ms after the listing if that found something, and closes the flight if the listing or the batch is empty; no id beyond round `cancelAt` of the claim loop is claimed; it fails only when a ledger write fails or it was cancelled; whatever it took it returns; a short batch leaves nothing that was readable at its start in pending, but for items whose read failed. Alone: the first min(listed, limit or 20, cancelAt) ids, success exactly if that is not cut short, and the exact new ledger. |
| Mailbox.ClosedIsEmptied | receive.go:59-95 | A flight is closed only by a receive that leaves nothing in pending that was readable at its start, but for items whose read failed. |
| Mailbox.Queue.WaitReceive | queue.go:397-435 | Every round but the last found the wait going on and nothing to claim; the last decides: bodies, an end noticed before the poll, or a poll cut short in its claim loop, when the end of the wait is reported in place of the error. The last poll claims only the first listed ids, none from the round on at which it noticed the end, and without an error nothing but what is returned. Alone: the exact batch, number of rounds and reply. |
| Mailbox.Queue.Search | notifications.go:133-142 | Looking in claimed and then done finds every good item that is not pending any more; alone, the file there decides the reply: success for a good one, an error for one that cannot be decoded, and missing for none. |
| Mailbox.SignalIsCovered | notifications.go:147-225 | For every ledger, address, transport, host answer and failing write the decisions give exactly the table of ledger, reply and host call in `SignalExactly`, with its times and protocol as numbers: an open flight absorbs, an earlier receipt answers, an attempt younger than 30000 ms has the caller wait, a plain transport replies by its own success with the ledger unchanged, and else a notice is reserved and its receipt recorded. In particular the host gets only the identity the ledger keeps, and after a success the next notify of the item does not call the host, unless the receipt was deferred. |
| Mailbox.Queue.SignalListed | notifications.go:147-225 | The program takes those decisions: ledger, reply and identity handed over. |
| Mailbox.Queue.NotifyPending | notifications.go:108-226 | For an item still listed, exactly that table, a plain transport included; for one that is not, the ledger stays and success means it is claimed or done; an item readable at the start is reported missing only if its read failed; and a notify takes no body. Alone, the reply for an unlisted item is that of its file in claimed or done. |
| Mailbox.Queue.PushAndNotify | transport.go:93-104 | The body is stored whatever the signal does; ledger, reply and host call are those of the table for the new item, so a push to a plain transport succeeds exactly when the transport does; it is reported missing only if the read of its file failed; and no body is taken. |
| Mailbox.Queue.ClaimUpTo | hookserve/hookserve.go:244-255 | A batch of at most the asked number (5 by default, 20 if out of range), of which nothing listed from round `cancelAt` on: a hook past its deadline claims no more. An error never comes with bodies and means the loop was cut short before the first; a batch without error is all that was claimed. Alone, the first min(listed, limit, cancelAt) ids and nothing else. |
| Agreement.ReceiveAlone | receive.go:35-97 | For every mailbox, ledger, notice and limit, the steps of a receive in the transition system, run alone, claim the program's batch and leave its files and ledger. |
| Agreement.NotifyAlone | notifications.go:108-226 | For every ledger, address and host answer, the steps of a notify of a listed item, run alone, leave the program's ledger, give its reply, and call the host exactly when it does and with the same identity: the table of `SignalExactly`. |
| Agreement.SearchAlone | notifications.go:132-142 | The steps of a notify of an unlisted item, run alone, reply by its file in claimed or done and change nothing. |
| Agreement.TakeAlone | queue.go:312-364 | The steps of a take, run alone, move just its item to claimed and return its content, or report an error for a file that cannot be decoded, or missing. |
| Agreement.TakeNextAlone | queue.go:334-356 | The steps of a take --next, run alone, claim the least pending id, or find nothing pending, as the program does. |
| Agreement.AckAlone | queue.go:368-388 | The steps of an ack, run alone, leave the program's files and give its reply. |
| Agreement.LostRace | queue.go:312-356 | A call that loses an item to another, before its rename or between that and the read, changes nothing; a take of that item reports it missing, any other call goes on with the next. |
| Agreement.FailedOperation | notifications.go:87-226 | A failing operation of any call ends it with an error, changes no file and no ledger, and leaves it the bodies it has claimed. |
| Flight.DrainTheorem | receive.go:35-97 | Draining n readable items with the current notice and limit L takes ceil(n/L) non-empty batches and one empty one, and the batches in order are the pending items in id order. |
| Flight.DrainAll | receive.go:35-97 | The receiver's loop yields those batches, ends with the flight closed and leaves nothing listed. |
| Flight.DrainLastsFiveMinutes | receive.go:59-71 | After a drain that listed something at time t the lease ends at t + 300000, and a notify at a later time t', with no step between, is absorbed exactly if t' < t + 300000; otherwise the host is handed a fresh identity. |
| FlightMachine.RunTrace | flight_fuzz_test.go:40-168 | Refinement: for a protocol-2 receiver and a host that queues, every finite trace of pushes, notifies, receives (generic, current, stale), acks and clock moves shows exactly the submissions, fresh identities and batches of the idle/queued/draining machine, whose lease is 300000 ms. |
| FlightMachine.WakeAgrees | notifications.go:104-225 | Under the refinement relation a notify submits exactly when no wake covers it, always under the fresh identity, and the relation is kept. |
| FlightMachine.ObserveAgrees | receive.go:49-71 | A notice is accepted exactly when the machine has it as its open flight, and observing it keeps the relation. |
| Paths.SanitizeSegment | queue.go:146-170 | The byte loop gives one character per UTF-8 byte of the trimmed text: a letter, digit, dot, underscore or dash stays and any other byte becomes an underscore. It refuses exactly the texts that trim to nothing, one dot or two dots. |
| Paths.SegmentReplaces | queue.go:150-170 | The segment specified on characters is that pointwise image of the bytes. |
| Paths.SegmentIsSafe | queue.go:146-170 | A segment is non-empty, has only safe characters and is not a dot directory; it is refused exactly for texts that trim to nothing, one dot or two dots. |
| Paths.SegmentFixed | queue.go:146-170 | The texts that are their own segment are exactly the safe ones, so a name read back from a directory names that directory. |
| Paths.Utf8IsExact | queue.go:155-157 | The bytes of a character are those of section 3 of RFC 3629, read back bit by bit. |
| Paths.EncodedJoins | queue.go:155-157 | The bytes of a text are those of its characters, in order. |
| Text.TrimUnique | queue.go:150 | The trimmed text is the one left when white space and nothing else is cut off at both ends, and none is left there. |
| Text.SpacesAre | queue.go:150 | White space is the 25 code points of Unicode's White_Space property. |
| Paths.CwdSegmentIsSafe | address.go:56-77 | A directory's index segment is a safe component of at most 97 characters, refused only for blank and dot directories. |
| Paths.CwdSegmentReads | address.go:60-77 | It is the last 80 characters, or all, of the directory's own segment, a dash, and the hash of the trimmed path. |
| AddressIndex.AddressBook.PutAddress | address.go:89-145 | Publishes the address and no other; on success for a directory adds just its marker and index directory, so the session is registered and found there; a put that fails adds no marker. Succeeds exactly when both names and the directory are usable and no write fails; keeps the index complete unless it is cut short after the address. |
| AddressIndex.AddressBook.RemoveAddress | address.go:184-218 | Removes the address, only the marker of the directory it names, and that directory exactly if no marker is left in it; succeeds exactly when both names and the recorded directory are usable and no removal fails; never makes the index incomplete, wherever it stops. |
| AddressIndex.AddressBook.TargetsByCwd | address.go:220-253 | Fails exactly on unusable arguments or when the listing or the read of an address fails. Among other processes, with one of their steps before each read: every name returned had the asked directory at one of the reads, and every listed name that had it at all of them is returned, listed or not if the index was complete. Alone: the sorted full scan. |
| AddressIndex.FoundExactly | address.go:89-218 | After any sequence of puts, moves and removals with any failures, a registered address with a usable directory is in that directory's index exactly when the last operation that wrote or pruned its marker wrote it. |
| AddressIndex.PutKeepsIndexExactly | address.go:89-145 | On a complete index, a put that reaches its address keeps it complete exactly when it is not cut short, needs no marker, or finds its marker there. |
| AddressIndex.IndexIsExact | address.go:89-253 | If no put is cut short the index stays complete, so lookups agree with a full scan, for any hash function. |
| AddressIndex.CutShortIsHidden | address.go:129-144 | A first put cut short between address and marker leaves an address that is registered and not found. |
| AddressRaces.CompleteOncePutsAreDone | address.go:89-218 | However puts overlap puts and removals overlap removals, once no put is in progress every registered address is marked unless its last put crashed, and if no put crashed the index is complete, provided no put overlaps a removal in the same index directory. |
| AddressRaces.CompleteExactly | address.go:89-218 | Any racing run leaves the index complete exactly when, for every registered address, the last step that wrote or pruned its directory's marker wrote it. |
| AddressRaces.PutsAloneAreOrderly | address.go:89-145 | Runs of puts alone meet that provision. |
| AddressRaces.RacingRemovalHides | address.go:182-218 | A concrete run in which a removal overlapping a put leaves the address registered, unmarked and with nothing left to mark it. |
| AddressRaces.NeighbourRemovalHides | address.go:129-143 | A run in which the removal of another session takes the shared index directory away between a put's making it and writing its marker: the put fails, its address stays registered and unmarked, and no removal of its own target ever ran. |
| AddressRaces.MarkSucceedsExactly | address.go:129-143 | A put that has made its index directory writes its marker exactly when that directory was not removed since, or was made again; otherwise it ends in an error. |
| AddressRaces.StepsMakeAPut | address.go:91-145 | The three steps of a put, undisturbed, are the program's put. |
| AddressRaces.StepsMakeARemoval | address.go:184-218 | The four steps of a removal, with the removal of an emptied index directory, undisturbed, are the program's removal. |
| PiDrain.OneDrainAtATime | extensions/pi/agentqueue.ts:99-175 | In every run at most one drain is suspended, and never beside a timer. |
| PiDrain.NothingAfterStop | extensions/pi/agentqueue.ts:144-221 | After a stop nothing is injected and no timer is set; at most the take under way still claims an item. |
| PiDrain.InjectedAtMostOnce | extensions/pi/agentqueue.ts:144-175 | With any failures no id is injected twice, and only ids this runtime claimed are injected. |
| PiDrain.InjectedInOrder | extensions/pi/agentqueue.ts:144-175 | Whatever takes and sends do, injected items keep the order in which this runtime claimed them. |
| PiDrain.NoSignalIsLost | extensions/pi/agentqueue.ts:99-175 | With takes and sends that work, an active runtime with no timer, drain or owed event has nothing pending, although each drain stops after five items. |
| PiDrain.RequestRepairs | extensions/pi/agentqueue.ts:99-175 | After any failures, one later drain request restores that. |
| PiDrain.StrandsExactly | extensions/pi/agentqueue.ts:99-175 | A step leaves pending items with nothing on its way to look at them exactly when it is a failing or losing take, or a failing send, of a drain with no owed event and no further round noted. |
| PiDrain.FailedTakeStrands | extensions/pi/agentqueue.ts:114-175 | Without such a request a failed take leaves pending items at rest. |
| PiDrain.EverythingIsDelivered | extensions/pi/agentqueue.ts:99-175 | Once arrivals and requests cease, at most a computed number of steps is left in any order, and when none is left everything that was pending has been injected. |
| PiDrain.Runtime.RequestDrain | extensions/pi/agentqueue.ts:99-112 | Afterwards whatever is pending will be looked at, whatever failed before, and one drain at a time is kept. |
| PiDrain.Runtime.RunTake | extensions/pi/agentqueue.ts:114-129 | A take claims just the item it answers with; one that works keeps pending items in sight; any take keeps the one-drain invariant. |
| PiDrain.Runtime.FireTimer | extensions/pi/agentqueue.ts:106-150 | The timer's callback up to the first wait; keeps the one-drain invariant. |
| PiDrain.Runtime.ResumeDrain | extensions/pi/agentqueue.ts:152-175 | One resumption, including its `finally`: a send that works injects the item and goes on below five items; the fifth, a failure or an empty take ends the drain, and a timer is set exactly if it was the fifth or a request came meanwhile; nothing is injected after a stop. |
| PiDrain.Runtime.StopRuntime | extensions/pi/agentqueue.ts:212-221 | Leaves no timer, takes and injects nothing, and keeps the invariant under which nothing is injected later. |
| Items.IdOrderIsTimeOrder | item.go:120-130 | For times below 10^13 ms ids compare as their times and, within a millisecond, as their random bytes; equal ids have equal times and bytes. |
| Items.ListingIsCreationOrder | queue.go:248-270 | A sorted directory of ids is in order of creation. |
| Items.FourteenDigitsSortFirst | item.go:129 | At 10^13 ms the order breaks: the first id of fourteen digits sorts before the last of thirteen. |
| Items.IdReadsBack | item.go:120-130 | An id has 26 characters: thirteen decimal digits that are the time in milliseconds, a dash, and twelve lower-case hexadecimal digits that are the six random bytes. |
| Items.IdsAreOrderedExactly | item.go:120-130 | Ids of all pairs of times below a bound are in order of time exactly when the bound is at most 10^13 ms. |
| Items.ParsedIsNormal | item.go:51-72 | A parsed target has a trimmed non-empty agent without a colon and a trimmed non-empty name. |
| Items.ParseSplits | item.go:53-72 | A text x:y whose first colon is that one is the target of trimmed x and trimmed y, and is refused exactly if either is blank. |
| Items.TargetRoundTrip | item.go:46-72 | Written and parsed again a target is itself exactly when it has that form. |
| Items.ParseIsStable | item.go:51-72 | Parsing, writing and parsing again gives the same target; a text without a colon names the session of agent `claude`, and a blank one is refused. |
| Shell.ShellQuote | cmd/agentqueue/hook_config.go:72-90 | A non-empty value of letters, digits and `._-/:` is returned as it is, any other is quoted; and the shell reads the result as one word equal to the input exactly when the input has no NUL. |
| Shell.QuoteRoundTrip | hookserve/caller.go:16 | A quoted string before the end of a word reads as the string, and not at all if it has a NUL. |
| Shell.ShellQuoteIsInjective | cmd/agentqueue/hook_config.go:72-90 | Different commands without NUL are never quoted alike. |
| Shell.EscapedReplaces | cmd/agentqueue/hook_config.go:89 | Quoting leaves text without single quotes as it is and replaces each single quote, from the left, by quote, backslash, quote, quote. |
| Shell.ExportTextIs | hookserve/caller.go:16-23 | The appended text is a newline and the three export lines, character by character. |
| Shell.SourcedValuesAreRestored | hookserve/caller.go:16-23 | Sourcing the exported lines sets the three variables to the three values, whatever quotes, newlines or equals signs are in them, and with a NUL they are not export commands. |
| Shell.ExportedCallerIsRestored | hookserve/caller.go:16-23 | Appended to a file of exports, empty lines and any other complete commands, last line ended or not, the lines keep what the file did and set the three values. |
| Shell.ExportedCallerExactly | hookserve/caller.go:16-23 | For a file of exports and empty lines the appended file sources exactly when the three values have no NUL. |

## Left out

- Attempts.AmbiguousAttemptsAreRare: the full 30 s between host calls, and T / 30 s + 1 calls in a window, do not hold of the code, because a process may stop between writing its reservation and calling the host; `Witnesses.CallsCanBeClose` is the run.
- Wakes.ClosedFlightMissesNothing: does not hold for an item whose file the closing call failed to read; `Witnesses.WakeCanBeLost` is the run.
- Hints.HintsAreBounded: counts recorded receipts and distinct identities; host calls repeated after a crash or an ambiguous answer carry the same identity and are counted by `Hints.HostCallsAreBounded`.
- Shell.ExportedCallerIsRestored: what other commands in the environment file do is arbitrary, but each must be complete: a file that ends inside a quotation or a compound command would take the appended lines into it.
- AddressRaces.CompleteOncePutsAreDone: completeness does not hold of the code when a put overlaps a removal in the same index directory; `AddressRaces.RacingRemovalHides` and `AddressRaces.NeighbourRemovalHides` are the runs, `AddressRaces.CompleteExactly` the condition.
- Identities.SupersededUnobserved: speaks of identities of protocol-2 attempts; the digests used without protocol 2 can repeat by design.
- Agreement.NotifyAlone: compares calls whose own reads and writes succeed and a transport with receipts; failing operations are in both views but not compared.
- PiDrain.NoSignalIsLost: assumes the watcher owes an event after each arrival; the watcher's own retry and error handling is not modelled.
- Mailbox.Queue.WaitReceive: time is a number of polls, and what ends the wait is given for each look at it.
- Transports without receipts appear in `Mailbox` only; `Protocol` has receipt transports.
- Items under one directory whose stored target differs from the asked one (the error at notifications.go:125) do not occur in the model.
- A rejected item id in `Notify` (empty, dots, slashes) and the empty id in `Take` and `Ack`; each is one branch at the start.
- JSON, file modes, directory creation, temporary files and syncing: a write is one atomic publish. `HostReceipt`, `Pending`, `FetchCmd` and other fields of a notice that no decision reads.
- `receiver.go`, and the errors of reading a receiver or an address: an unreadable one is a failing operation.
- A directory scan is one step; entries seen while others rename are not modelled separately.
- Strings that are not valid UTF-8.
- The host side of a submission: Codex and Claude calls, receipt parsing, the transport registry.
- `Mailboxes`, the session and caller joins, the command line, installation, hook output and `RenderDelivery`; `HandleClaude` beyond what it claims; `ParseState` and `State.String`, each read off one switch.
- The fallback of `newID` to the clock when random bytes are not available.
- SHA-256 and FNV: the digest of a notice is the list it is taken of, the hash of a directory is any function.
