# Verified models of the firmware's stateful protocols

These Dafny modules model the small protocols in the firmware whose correctness depends on whole runs, on
faults at any step, or on threads interleaving, and prove what those protocols promise.

| module | models |
|---|---|
| `NxpChip`, `NxpDevice`, `NxpStore`, `NxpRuns`, `NxpApdu` | provisioning, unlocking and erasing the wallet seed on the A5000 chip over a bus that may lose or falsify any exchange, and the bytes of its commands |
| `EntropyCollector`, `EntropyTranscript` | the collector's hierarchical state machine, and the transcript it writes |
| `BusPool`, `BusPayload` | the buffer pools, fragment chains and queues between threads and the core |
| `CoreRequests`, `CoreEffects`, `CoreLoop` | requests across the C and Rust boundary, the core's effect queue and the thread that drains it, and that thread's turn from queue to wallet |
| `FidoExchange` | request numbers, the one active request and late replies of the FIDO thread |
| `UartReceive` | the receive interrupt, the stash and the retrying work item |
| `ImuTimestamps` | the time stamps the motion sensor's driver makes up and the check its consumer applies |
| `WifiScan`, `WifiPortal` | the top-twelve scan list with its sort; chunked POST bodies and credentials |
| `QrHandoff`, `QrFrame` | the threads of the QR scanner over one snapshot; its crop and gray conversion in place |

## How to read the models

Code that updates static structures is a class whose methods follow the code branch by branch; its `Valid()`
is the invariant every method keeps, and each contract ties the new state to the old one. Hash functions, key
derivation and text validity are arbitrary functions. What a bus, a library call, an allocator, a clock or
another thread may do is chosen arbitrarily inside the methods, or comes in as a parameter, so every theorem
holds whatever they do. Where a clause says what happens when nothing goes wrong, a field such as `calm` says
that nothing will.

Where threads share data (`BusPool`, `FidoExchange`, `UartReceive`, `QrHandoff`) a datatype holds the shared
state with a program counter for each thread, a `Move` is one atomic step of one of them, and theorems are
about every finite sequence of enabled moves. In `BusPayload` and `FidoExchange` the code of one thread then
runs with any number of other threads' moves between its own steps; `UartReceive.Uart` is the code of the two
functions in place, and each returns the run of the machine it makes.

`NxpRuns.Drive` and `EntropyCollector.Drive` show that the code only produces runs in the sense of `IsRun`, so
the theorems about runs are theorems about the code. `CoreLoop` joins `BusPayload` and `CoreEffects`: a choice
or a request of the display, a request of the FIDO code and the bytes of a transport reach the wallet as such.

Where code and contract share a function, a lemma says what that function means in other terms: in literals, by
a reader of the bytes it makes, or by a history it must agree with.

The results are the contracts of the methods and the lemmas over steps and runs; `NxpRuns.AnswersAreTrue`,
`EntropyCollector.StaleEvent`, `FidoExchange.OneActive` and `UartReceive.PendingMeansOff` are short corollaries
of them, listed because each is a promise of the code in its own right.

## What turned out not to hold

Six things one might expect fail in the code; the models keep the code as it is, show an input, and prove
exactly when each does hold.

- *Unlock returns the seed of the last successful initialization.* An initialization that reports an error can
  have stored all three objects; a refresh then finds a ready chip, and unlock returns the seed of a call that
  failed (`NxpRuns.UnlockAfterFailedInitialize`; the code takes that run, `NxpRuns.InterruptedProvisioning`).
  It is the last success exactly when the call that stored it returned OK (`NxpRuns.AuthorIsLastSuccessIff`),
  and always when nothing was initialized after an erase since the last success
  (`NxpRuns.UnlockReturnsLastSuccess`).
- *The IMU runs only in its own state.* Its stop command is published without a check and may be lost
  (`EntropyCollector.ImuLeftRunning`). After any run of calls it is on exactly when some start took effect and
  every stop command sent since was lost, so outside its own state never while stop commands arrive
  (`EntropyCollector.ImuOutsideItsState`). The microphone runs exactly in its own state.
- *Every accepted feed shortens the work.* Touch units that wrap the 32-bit counter lengthen it
  (`EntropyCollector.WrappingFeed`); a feed shortens it exactly when the counter does not wrap
  (`EntropyCollector.FeedProgress`).
- *The scanner can be started again after a stop.* A stop that has seen the scanner running and announces it as
  stopping after the camera thread has announced its end leaves it stopping for ever
  (`QrHandoff.StopCanStrand`). In every reachable state some run leads to a start that is accepted, exactly
  unless such a stop has happened or is under way (`QrHandoff.StartableIff`); after the last step of a stop,
  exactly when the camera thread has not announced its end since the stop looked
  (`QrHandoff.StartableAfterStopIff`). A stop that is not doomed ends the session in every run in which the camera
  thread keeps stepping (`QrHandoff.StopEnds`).
- *Every confirmation that cannot be shown is rejected.* One drain reports only the last one
  (`CoreEffects.FirstNeverRejected`). All are rejected after their drains exactly when in every drain those that
  fail are of one confirmation with an id (`CoreEffects.AllRejectedIff`), and one confirmation is ever rejected
  exactly when it is the last to fail in some drain (`CoreEffects.EverRejectedIff`).
- *A handler is called only for its own request's sake.* When an authorised request is never closed and the next
  one is aborted before its first chunk, the next one's handler is told of the abort though nobody authorised it
  (`WifiPortal.StaleNotice`). Every call is its request's own exactly unless that happens
  (`WifiPortal.CallsIndependentIff`); completed bodies always are (`WifiPortal.RequestsIndependent`).

SSIDs with an embedded zero byte can be listed twice (`WifiScan.EmbeddedZeroIsListedTwice`), and SSIDs with a
colon are cut at the colon (`WifiPortal.CredentialsRoundTrip`, an equivalence).

## Model

| member | source | states |
|---|---|---|
| NxpChip.Bus.Transceive | src/tests/nxp/test_store.c:9-118 | one exchange under any fault: applied or not, answered, lost or falsified; only the chip produces an authenticated reply, and attempt counters persist |
| NxpChip.DisciplineMeans | src/security/nxp/device.c:51-122 | the folded verdict on a bus trace holds exactly when every command was sent on a channel live at that point and the seed was read only after the PIN user was verified on it |
| NxpChip.FreshMeans | src/security/nxp/store.c:67-114 | the other verdict holds exactly when no create was sent for an object the chip held |
| NxpChip.DownUntilReconnected | src/security/nxp/device.c:115-118 | after a failed exchange the channel is down for as long as nobody reconnects |
| NxpChip.FailClosed | src/security/nxp/device.c:51-122 | between a failed exchange and the next command of a disciplined trace lies a reconnection |
| NxpDevice.Device.Exchange | src/security/nxp/device.c:51-122 | nothing is sent on a closed channel, every error closes it, success means an authenticated answer to a command that was applied, and the trace stays disciplined |
| NxpDevice.Device.Open | src/security/nxp/device.c:148-177 | the channel is open exactly on OK, with no user session and the expected applet version; no object changes |
| NxpDevice.Device.Close | src/security/nxp/device.c:131-146 | channel, user session and authentication are all gone |
| NxpDevice.Device.Exists | src/security/nxp/device.c:179-191 | OK tells the truth about the chip; any error closes the channel; the chip is unchanged |
| NxpDevice.Device.Read | src/security/nxp/device.c:193-217 | OK fills the buffer with the object's data; a buffer over 64 bytes is refused at once and left alone; every other return leaves it all zero; the seed is not asked for without PIN authentication |
| NxpDevice.Device.Write | src/security/nxp/device.c:219-233 | whatever the result, the chip is unchanged or has exactly the new object, which was not there before; OK means it has |
| NxpDevice.Device.User | src/security/nxp/device.c:235-251 | the same for a user object with a fresh attempt counter |
| NxpDevice.Device.Auth | src/security/nxp/device.c:253-279 | at most one verification is sent; OK means the value is the stored one and attempts were left; the chip changes by that verification's counter at most |
| NxpDevice.Device.ResetAuth | src/security/nxp/device.c:281-291 | OK means the reset user is authenticated; only the reset object may have been created, and a reset user the key opens stays one, whatever fails |
| NxpDevice.Device.DeleteAll | src/security/nxp/device.c:293-300 | the chip is unchanged or holds nothing but perhaps the reset object, unaltered, whatever is returned |
| NxpStore.Store.Scan | src/security/nxp/store.c:17-34 | the cached state agrees with the chip; OK exactly for none or all of the three objects, so a partly provisioned chip is never taken as empty |
| NxpStore.Store.Refresh | src/security/nxp/store.c:36-44 | the invariant holds again and no object changed; undisturbed, OK exactly on a blank or complete chip |
| NxpStore.Store.SeedExists | src/security/nxp/store.c:52-65 | 0 only on a blank chip, 1 only on a complete one; undisturbed, a first call tells exactly which, or -1 for neither; later ones send nothing and answer what was found |
| NxpStore.Store.Initialize | src/security/nxp/store.c:67-114 | refuses anything but a blank chip, creates no object twice, leaves a prefix of salt, PIN, seed with the intended contents under any fault and a usable reset user usable, and OK means all of them; undisturbed it succeeds exactly on a blank chip with a usable reset user; a failure never leaves the state empty, and incomplete once something was stored; the channel is closed |
| NxpStore.Store.Unlock | src/security/nxp/store.c:116-155 | at most one verification; OK means the derived credential equals the stored one, the PIN object's limit was not used up, and the output is the stored seed; every other return leaves all 64 output bytes zero; the state is ready exactly on OK and tells a rejection exactly when there was one; the channel is closed |
| NxpStore.Store.Erase | src/security/nxp/store.c:157-178 | OK only when a scan afterwards found the chip blank, any other result makes the state unavailable; undisturbed it succeeds exactly when the reset user is usable |
| NxpRuns.TenWrongExhaust | src/security/nxp/store.c:116-155 | over every run from a blank chip, or one whose PIN object the store wrote, the PIN object keeps its limit of ten, and its counter stands at the wrong verifications that reached the chip since the last right one; so it is locked exactly from the tenth on |
| NxpRuns.UnlockNeedsFewerThanTen | src/security/nxp/store.c:116-155 | over every run an unlock that returns OK found fewer than ten failures and leaves none |
| NxpRuns.LockoutIsPermanent | src/security/nxp/store.c:67-155 | once the PIN is used up, in every run without an erase no stored object changes and neither unlock nor initialize returns OK |
| NxpRuns.OneVerificationPerUnlock | src/security/nxp/store.c:67-155 | on a chip that holds anything of the wallet, every run without an erase sends at most one PIN verification per unlock call and none otherwise |
| NxpRuns.AnswersAreTrue | src/security/nxp/store.c:17-178 | a corollary of the contracts: at every point of every run the cached state is true of the chip, and so are the answers of seed_exists, initialize and erase |
| NxpRuns.SeedIsAuthors | src/security/nxp/store.c:67-114 | in every run from a blank chip a stored seed is the argument of one initialize call, and nothing altered it since |
| NxpRuns.UnlockReturnsStoredSeed | src/security/nxp/store.c:116-155 | a successful unlock returns the seed of the call that stored it |
| NxpRuns.AuthorIsLastSuccessIff | src/security/nxp/store.c:67-155 | that call is the last successful initialize exactly when it returned OK |
| NxpRuns.UnlockReturnsLastSuccess | src/security/nxp/store.c:67-155 | when nothing was initialized after an erase since the last successful initialize, unlock returns its seed |
| NxpRuns.UnlockAfterFailedInitialize | src/security/nxp/store.c:67-155 | without that condition it fails: a run in which unlock returns the seed of a call that reported an error |
| NxpRuns.InterruptedProvisioning | src/security/nxp/store.c:67-155 | the code takes such a run when the bus is cut right after the seed write |
| NxpRuns.Drive | src/security/nxp/store.c:12-178 | any requests, on a bus that changes its behaviour before every call, produce a run of the model |
| NxpRuns.EraseThenInitialize | src/security/nxp/store.c:67-178 | on an undisturbed bus, erase and then initialize succeed from any chip state, exactly when the reset user is usable |
| NxpRuns.ResetStaysUsable | src/security/nxp/device.c:281-300 | over every run a reset user that the key opens stays one |
| NxpRuns.RecoverAfterAnyRun | src/tests/nxp/test_store.c:79-118 | after any requests under any faults at any step, erase and then initialize succeed once the bus is undisturbed |
| NxpApdu.EncodeRoundTrip | src/security/nxp/device.c:16-47 | every command the device builds reads back as itself from its instruction, parameters and one-byte TLVs |
| NxpApdu.WriteRoundTrip | src/security/nxp/device.c:219-233 | a binary write decodes back to its identifier, reader and data, under a rule that allows reading with secure messaging and nothing else |
| NxpApdu.UserRoundTrip | src/security/nxp/device.c:235-251 | a user object write decodes back to its identifier, value and limit |
| NxpApdu.InnerRoundTrip | src/security/nxp/device.c:61-72 | the inner command fits 116 bytes and parses back under the short command cases |
| NxpApdu.WrappedRoundTrip | src/security/nxp/device.c:61-78 | what travels in a user session reads back as that session and exactly that command |
| NxpApdu.BuildWrite | src/security/nxp/device.c:219-233 | built in place, the write command's data stays inside its 96-byte buffer and is the encoding |
| NxpApdu.BuildUser | src/security/nxp/device.c:235-251 | the same for the user command and its 48-byte buffer |
| NxpApdu.BuildExchange | src/security/nxp/device.c:51-80 | an exchange is refused exactly when its data exceeds 110 bytes; otherwise what it hands over fits and is the wrapped command |
| EntropyTranscript.TranscriptRoundTrip | src/entropy/entropy.c:690-732 | every transcript that obeys the format's rules fits 174 bytes and decodes to itself |
| EntropyTranscript.TranscriptCanonical | docs/mnemonic-entropy.md:61-81 | whatever the reader accepts is the encoding of what it returns, so the rules shut out everything else |
| EntropyTranscript.RecordCount | docs/mnemonic-entropy.md:61-81 | the rules force one record per completed source, in bit order, at most four |
| EntropyTranscript.RecordsRoundTrip | src/entropy/entropy.c:710-728 | records with little-endian units and durations read back in order |
| EntropyTranscript.BitsRoundTrip | src/entropy/entropy.c:700-708 | a bitmap byte reads back as its set of sources |
| EntropyTranscript.MembersAre | src/entropy/entropy.c:209-221 | a bitmap's sources in bit order are exactly its set bits, as many as its population count |
| EntropyTranscript.BitsAreSets | src/entropy/entropy.c:209-221 | union, intersection, difference and mask of bitmaps are those of sets of sources |
| EntropyTranscript.BitsOfOne | src/entropy/entropy.c:209-221 | adding a source to a bitmap and keeping those below it, in terms of sets |
| EntropyTranscript.Layout | docs/mnemonic-entropy.md:61-81 | the header is the letters OSEM, version 1, word count, three bitmaps and the record count, and the records follow |
| Bytes.FourBytes | src/entropy/entropy.c:388-389 | the value of four bytes in either order, digit by digit |
| EntropyCollector.ProgressFull | src/entropy/entropy.c:223-231 | progress is 1000 exactly when the target is reached |
| EntropyCollector.FrontierMeans | src/entropy/entropy.c:209-221 | the current source is pending, below every other pending source and above every handled one |
| EntropyCollector.AdvanceCompleted | src/entropy/entropy.c:348-371 | completing it keeps the bitmaps disjoint and in order and leaves one pending source fewer |
| EntropyCollector.AdvanceSkipped | src/entropy/entropy.c:440-476 | so does skipping it |
| EntropyCollector.LedgerExtends | src/entropy/entropy.c:348-371 | filing the finished capture keeps the records strictly increasing and equal as a set to the completed sources |
| EntropyCollector.Collector.NextSource | src/entropy/entropy.c:209-221 | the loop returns the lowest pending bit, or nothing exactly when nothing is pending |
| EntropyCollector.Collector.EnterSource | src/entropy/entropy.c:304-337 | an entry starts with an empty capture, the opening of the hash, the clock as its start time and the source's device, or lands in the error state with the device stopped again |
| EntropyCollector.Collector.ExitSource | src/entropy/entropy.c:279-295 | an exit stops the source's device and drops hash and units |
| EntropyCollector.Collector.TransitionNext | src/entropy/entropy.c:339-346 | the old source's device is stopped and the lowest pending source entered at this moment, or ready exactly when nothing is pending |
| EntropyCollector.Collector.CompleteSource | src/entropy/entropy.c:348-371 | the record filed is the one the open capture deserves |
| EntropyCollector.Collector.SourceRun | src/entropy/entropy.c:373-416 | a feed for another session or source changes nothing; otherwise the batch joins the capture, timed from its entry, completes it at the target and moves on, or is lost with it on a hash error; what becomes of devices and start time in each case |
| EntropyCollector.Collector.ErrorRun | src/entropy/entropy.c:418-438 | a retry enters the same source again with an empty capture that starts now, its device and the leaf as an entry leaves them |
| EntropyCollector.Collector.ActiveRun | src/entropy/entropy.c:440-476 | fail, skip and cancel of this session do what their names say and stop what is left, anything else is refused without a change |
| EntropyCollector.Collector.Dispatch | src/entropy/entropy.c:478-548 | every event on every context: the invariant is kept and the outcome is the contract of that event, down to leaf, devices and start time |
| EntropyCollector.Collector.Begin | src/entropy/entropy.c:589-625 | a session starts only with valid words and offered sources, under a new number, with nothing left of the one before |
| EntropyCollector.Collector.Submit | src/entropy/entropy.c:627-642 | empty batches are refused before anything else; others are dispatched |
| EntropyCollector.Collector.TranscriptGet | src/entropy/entropy.c:690-732 | a ready session's buffer receives exactly the encoded transcript and its size; any refusal writes nothing |
| EntropyCollector.ReadyIsWellformed | src/entropy/entropy.c:690-732 | in every reachable ready state what is written obeys all rules of the format |
| EntropyCollector.FeedProgress | src/entropy/entropy.c:373-416 | an accepted feed shrinks pending sources and missing units lexicographically exactly when the counter does not wrap |
| EntropyCollector.SkipProgress | src/entropy/entropy.c:440-476 | a skip always shrinks them |
| EntropyCollector.StaleEvent | src/entropy/entropy.c:373-499 | a corollary of Dispatch: an event carrying another session's number changes nothing |
| EntropyCollector.ImuLeftRunning | src/entropy/entropy.c:132-142 | a run of the code after which the collector is idle and the IMU still on |
| EntropyCollector.ImuOnIff | src/entropy/entropy.c:132-176 | after any run of calls the IMU is on exactly when some start took effect and no stop command sent since has arrived |
| EntropyCollector.ImuOutsideItsState | src/entropy/entropy.c:132-176 | outside its state it is on exactly then, and it has been sent a stop by then, so it is off whenever stop commands arrive |
| EntropyCollector.Drive | src/entropy/entropy.c:478-625 | the code, given any calls in any circumstances, produces such runs, with the hash function it was given |
| EntropyCollector.DigestProvenance | src/entropy/entropy.c:304-416 | over every run of calls each record in use tells of exactly the batches accepted between the call that last entered its source and the one that completed it, timed from that entry, whatever failures and retries came before: its digest is of a message in which each can be read, its units are their sum modulo 2^32 and reach the target |
| EntropyCollector.MessageReads | src/entropy/entropy.c:304-330 | what is hashed reads as the domain, version 1 and the source's bit, then each batch at its place: duration and units, least significant byte first, and exactly its data |
| EntropyCollector.MessagesDiffer | src/entropy/entropy.c:373-392 | captures whose batches are as long hash the same message only if they are the same |
| EntropyCollector.StoryIsOfTheRun | src/entropy/entropy.c:304-416 | the same of the capture under way and of every finished one: opened by one call of the run, stayed in, and completed by another in the same session |
| EntropyCollector.WrappingFeed | src/entropy/entropy.c:373-416 | a feed the code accepts after which more work is missing than before |
| BusPool.StepKeeps | src/bus.c:114-236 | every step of every thread keeps every buffer in exactly one place, free buffers blank and nothing stored beyond a fill level, though a wipe covers only the filled part |
| BusPool.ExactlyOnePlace | src/bus.c:87-105 | a buffer is free, in one queued message or in one thread's hands, once; a free one holds only zeros |
| BusPool.ChainFits | src/bus.c:171-193 | no payload has more fragments than the pool has buffers |
| BusPool.StepRefines | src/bus.c:114-236 | each step does to plain queues of byte strings what its name says, and nothing to any other queue or thread |
| BusPool.RunRefines | src/bus.c:114-376 | in every interleaving from a sound state buffers stay accounted for and payloads stay what was written |
| BusPool.LettersConserved | src/bus.c:206-224 | over any run what is posted to a queue stays posted, and what is fetched is each posted letter once, in order |
| BusPool.FreshIsSound | src/bus.c:87-105 | the pools and queues as defined start that way |
| BusPayload.Client.PayloadCreate | src/bus.c:119-153 | all of both parts or nothing: too large exactly beyond COUNT*SIZE, any failure returns every fragment, and with no other thread at work it succeeds exactly when the free buffers can hold the bytes |
| BusPayload.Client.AppendBytes | src/bus.c:137-150 | appends a prefix of the data, stopping only when the last buffer is full and no other is to be had |
| BusPayload.Client.Slices | src/bus.c:171-193 | the slices joined are the payload, whenever the capacity covers the chain |
| BusPayload.Client.PayloadRelease | src/bus.c:195-205 | every buffer is wiped and returned, nothing stays in hand |
| BusPayload.Client.QueuePut | src/bus.c:207-216 | OK means that exactly this letter was posted by this thread and into this queue, and nothing else happened if nobody interferes; otherwise the payload is released and nothing posted |
| BusPayload.Client.Submit | src/bus.c:236-298 | OK means exactly one new letter by this thread, both parts under the header, whatever other threads do meanwhile, and any failure none; nothing stays in hand either way; undisturbed the queue grows by that message, which happens exactly when the bytes fit the free buffers and the queue has room, and a failure changes no queue and loses no buffer |
| BusPayload.Client.SubmitLocal | src/bus.c:255-274 | refused exactly before the core is ready; OK means exactly one new letter, with the length of its first part |
| BusPayload.Client.SubmitFido | src/bus.c:277-297 | the same for a FIDO request |
| BusPayload.Client.SubmitProtocol | src/bus.c:236-252 | and for the bytes of a transport |
| BusPayload.Client.SubmitConfirmation | src/bus.c:300-316 | a choice is refused before the core is ready or without an id; OK means exactly one new letter, without a payload |
| BusPayload.Client.QueueGet | src/bus.c:218-224 | OK means exactly one fetch by this thread, of the next posted letter, which comes into its hands; otherwise none |
| BusPayload.Client.NextCommand | src/core.c:179-226 | under any interference this thread fetches exactly one letter not fetched before, sliced into its payload, or none, and every buffer is returned; the branch for an invalid payload is never taken |
| BusPayload.CapacityIsProduct | src/bus.c:130-134 | the capacity used in the contracts is the product the code compares with |
| CoreRequests.LocalRoundTrip | src/rs/ffi.rs:447-475 | the core reads back the display's request itself, exactly when its texts are texts |
| CoreRequests.FidoRoundTrip | src/rs/ffi.rs:477-519 | the core accepts exactly the FIDO requests whose parts fit, and reads back those with 32-byte hashes |
| CoreRequests.LocalReadsIff | src/rs/ffi.rs:447-475 | whatever a local command holds, it is read exactly when its texts are texts and its split is inside, and what is read lays out as that command |
| CoreRequests.FidoReadsIff | src/rs/ffi.rs:477-519 | the same for a FIDO command: whole hashes, one of four operations, a protection level of one byte |
| CoreRequests.Gather | src/rs/ffi.rs:415-425 | the loop over the slices yields their concatenation |
| CoreEffects.Core.Execute | src/rs/ffi.rs:533-597 | a command is taken exactly when the core is idle and the command well formed; a refused one leaves no trace; the wallet is asked exactly the request read from the payload, or frames that hold the bytes received, each once and in order, and exactly its answers are queued; an unreadable request queues one error reply under its own id |
| CoreEffects.Core.FeedProtocol | src/rs/ffi.rs:325-342 | every frame the parser yields is handed to the wallet once and in order, under its route; the bytes kept and received are exactly those of the frames, those lost to a busy wallet and those left over; exactly the answers are queued; frames of a Bluetooth session hold only bytes of that session |
| CoreEffects.Core.SelectParser | src/rs/ffi.rs:312-323 | a new session clears what another one left in the parser |
| CoreEffects.Core.EffectNext | src/rs/ffi.rs:600-670 | effects come out in order, and the core is idle when none is left |
| CoreEffects.CoreThread.RouteEffect | src/core.c:91-141 | the confirmation on display after each kind of effect, with storing and sending failing freely |
| CoreEffects.CoreThread.DrainEffects | src/core.c:143-160 | the core ends idle, exactly its effects are routed once and in order, and the last failed confirmation is returned |
| CoreEffects.CoreThread.RejectUnpublished | src/core.c:162-177 | the wallet is asked, in order, to reject exactly what each drain but the last reported, each drain routes its answer to that, the last reports nothing, and the core takes every rejection; the loop ends because the wallet's script is finite |
| CoreEffects.CoreThread.Run | src/core.c:179-226 | a command is refused exactly when malformed, with one error reply to a local or FIDO requester; otherwise the wallet is asked its request or frames and then exactly the rejections, every effect is routed, the parsers keep what the bytes left over, and the core is idle again |
| CoreEffects.CoreThread.Serve | src/core.c:228-244 | over any commands and any wallet behaviour none is refused for leftovers and every effect is routed exactly once |
| CoreEffects.CoreThread.ConfirmationGet | src/core.c:76-89 | another thread sees a confirmation exactly when the history says it is on display |
| CoreEffects.ShownMeans | src/core.c:56-141 | on display means: announced successfully, and neither completed nor replaced since |
| CoreEffects.LastRejectIsLastFailing | src/core.c:143-160 | the id returned is that of the last announcement that failed |
| CoreEffects.RejectedIff | src/core.c:143-177 | the rejection that follows a drain is of the confirmation that failed last in it, and of no other |
| CoreEffects.AllRejectedIff | src/core.c:143-177 | every announcement that fails is rejected after its drain exactly when in every drain those that fail are of one confirmation with an id |
| CoreEffects.EverRejectedIff | src/core.c:143-177 | the wallet is ever asked to reject a confirmation in the run exactly when it is the last to fail in some drain |
| CoreEffects.OnlyRejections | src/core.c:162-177 | what the thread asks of its own accord is only ever to reject |
| CoreEffects.FirstNeverRejected | src/core.c:143-177 | the code takes a run in which two announcements fail in one drain and only the second is rejected |
| CoreLoop.TakeTurn | src/core.c:179-244 | one turn under any interference: exactly one letter fetched by this thread, the wallet asked what it says, kind by kind, and then only rejections: the choice made, the request read from header and payload, frames of its own route that hold its bytes, or nothing and the author told of the failure; or no letter, and nothing asked |
| CoreLoop.HandledMeans | src/core.c:179-224 | every letter handled is dealt with as it reads, kind by kind, in terms of the letter alone |
| CoreLoop.SlicingIsInvisible | src/rs/ffi.rs:415-445 | however a payload is sliced, the core makes the same of it |
| CoreLoop.TakeTurns | src/core.c:228-244 | over any number of turns letters are handled in posting order, each at most once, and the wallet is asked exactly their conversations, one after another, answering each where it left off |
| CoreLoop.AskedSplits | src/core.c:228-244 | what one turn asks stands once, at its place, in what all of them ask |
| CoreLoop.ChoiceToWallet | src/bus.c:300-316 | a choice made on the device, whatever other threads do: exactly one letter is posted, at most one turn fetches it, and puts that very choice to the wallet, then only rejections |
| CoreLoop.FidoToWallet | src/bus.c:277-297 | the same for a request of the FIDO code: asked under its id when its parts fit, and otherwise its author is told that it failed |
| CoreLoop.BytesToWallet | src/bus.c:236-252 | and for bytes of a transport: what is put to the wallet for them carries their own route |
| CoreLoop.DisplayToWallet | src/bus.c:255-274 | a request of the display, whatever other threads do: exactly one letter is posted, at most one turn fetches it, and its part of all the wallet is asked is exactly this request, if its texts are texts, and rejections of what failed to be announced |
| CoreLoop.UndisturbedToWallet | src/bus.c:255-274 | undisturbed, on an empty queue and with enough free buffers, the next turn asks the wallet exactly that, and every buffer is free again |
| FidoExchange.StepKeeps | src/usb/fido2.c:61-160 | every step of every thread, and a reply at any time, keeps the invariant |
| FidoExchange.OneActive | src/usb/fido2.c:61-93 | a corollary of the invariant: at most one request is active, its id is in the slot and is not zero |
| FidoExchange.ReplyIsOurs | src/usb/fido2.c:107-137 | the reply returned carries the request's id, and within 2^32 numbers it answers that very request |
| FidoExchange.RepliesConserved | src/usb/fido2.c:107-113 | every reply queued is fetched once, in order, or waits |
| FidoExchange.SameIdMeans | src/usb/fido2.c:61-69 | two numbers share an id exactly when a multiple of 2^32 apart |
| FidoExchange.NumbersAreDraws | src/usb/fido2.c:61-69 | after every run the number in use is the number of draws, none left out |
| FidoExchange.FetchAnswers | src/usb/fido2.c:107-113 | a reply fetched ends the wait exactly when it carries the thread's id |
| FidoExchange.RunKeeps | src/usb/fido2.c:61-160 | the invariant holds after every run |
| FidoExchange.ResultRoundTrip | src/usb/fido2.c:115-137 | credential and data arrive whole exactly when both fit the caller's buffers, and as an error otherwise |
| FidoExchange.Client.RequestIdNext | src/usb/fido2.c:61-69 | ends with a number whose id is not zero |
| FidoExchange.Client.Request | src/usb/fido2.c:86-160 | what is returned comes from one reply fetched in this very call under the number drawn in it, which carries that number's id and within 2^32 numbers answers no other request; the result is 0 exactly for a success whose parts are usable, with both parts, and tells cancellation, refusal and bad lengths apart; or nothing was taken, with the response left alone when the slot is busy and emptied otherwise, and a time-out only after looking at as many replies as there were, none of them ours; the slot is free again |
| UartReceive.StepKeeps | src/uart.c:21-69 | no step of interrupt or work item loses, repeats or reorders a byte, and stashed bytes keep the interrupt off |
| UartReceive.ExactlyOnce | src/uart.c:21-69 | in every interleaving the bytes received are those queued, stashed, in hand and in the FIFO, in order, and reception never dies |
| UartReceive.PendingMeansOff | src/uart.c:54-60 | a corollary of the invariant: outside the instructions between stashing and disabling, stashed bytes mean the interrupt is off and a retry is due |
| UartReceive.NeverOverwritten | src/uart.c:54-60 | whenever the handler stashes, nothing is stashed |
| UartReceive.Drains | src/uart.c:21-71 | nothing is stranded: from every reachable state, while the line is quiet and the core takes what it is offered, every run is short and ends with every byte that arrived taken |
| UartReceive.Uart.RxHandler | src/uart.c:41-69 | in place, a run of the machine: the interrupt empties the FIFO or stashes the refused bytes, turns itself off and schedules the retry |
| UartReceive.Uart.RxResume | src/uart.c:21-36 | in place, a run of the machine: the work item hands the stash over whole and wiped, or keeps it scheduled |
| UartReceive.Uart.Stash | src/uart.c:57-61 | the copy into the stash is exact and leaves zeros behind it |
| ImuTimestamps.SelectRate | drivers/sensor/qmi8658a_fifo/qmi8658a_fifo.c:148-171 | the nearest rate, the faster of two equally near |
| ImuTimestamps.PeriodsAreUsable | drivers/sensor/qmi8658a_fifo/qmi8658a_fifo.c:62-66 | every rate gives a period of at least a nanosecond |
| ImuTimestamps.ConvertIsFaithful | drivers/sensor/qmi8658a_fifo/qmi8658a_fifo.c:364-372 | conversion is exact to one unit toward zero, within full scale and 32 bits |
| ImuTimestamps.ConvertIsOdd | drivers/sensor/qmi8658a_fifo/qmi8658a_fifo.c:364-372 | opposite readings convert to opposite values |
| ImuTimestamps.PlanRises | drivers/sensor/qmi8658a_fifo/qmi8658a_fifo.c:391-410 | the stamps are positive, rise, and follow the previous batch unless flagged |
| ImuTimestamps.NewestAgainstClock | drivers/sensor/qmi8658a_fifo/qmi8658a_fifo.c:391-410 | the newest stamp is at or before the clock exactly when the clock exceeds the span or the stamps were squeezed in, and how close it then is |
| ImuTimestamps.PlanFits | drivers/sensor/qmi8658a_fifo/qmi8658a_fifo.c:391-410 | all time arithmetic fits 64 bits while the clock does |
| ImuTimestamps.Driver.ReadBatch | drivers/sensor/qmi8658a_fifo/qmi8658a_fifo.c:302-428 | the batch delivered for a count, an overflow flag and a clock reading, sample by sample, and the last time kept |
| ImuTimestamps.Driver.Stamp | drivers/sensor/qmi8658a_fifo/qmi8658a_fifo.c:391-410 | the in-place arithmetic is the plan |
| ImuTimestamps.Driver.Start | drivers/sensor/qmi8658a_fifo/qmi8658a_fifo.c:230-275 | a start resets the last time, except when already running |
| ImuTimestamps.Driver.Stop | drivers/sensor/qmi8658a_fifo/qmi8658a_fifo.c:277-300 | a stop always ends with the driver stopped and the last time forgotten |
| ImuTimestamps.DriverMeetsConsumer | src/imu/imu.c:236-254 | for any counts, flags and clock readings the consumer's check accepts what the driver stamps |
| ImuTimestamps.AcceptableExtends | src/imu/imu.c:236-254 | accepted batches join to a stream that rises except at flagged samples |
| ImuTimestamps.Acquisition.ProcessBatch | src/imu/imu.c:236-267 | a batch is accepted exactly when it passes the check, whole or not at all |
| ImuTimestamps.Acquisition.Deliver | src/imu/imu.c:375-398 | in every state of a running thread the batch is never rejected, and its newest time is at or before the clock when the clock covers the batch |
| ImuTimestamps.Acquisition.HandleFailure | src/imu/imu.c:326-344 | failures are reported once, at the fifth in a row, and stop the source from then on |
| ImuTimestamps.Acquisition.Turn | src/imu/imu.c:346-405 | every turn keeps consumer and driver in step: unwanted it ends stopped; stopped it starts afresh or counts a failure; running it takes the whole batch polled or counts a failure, stopping at the fifth in a row, the only one reported |
| WifiScan.BestIsEarliestStrongest | src/net/wifi.c:612-649 | the specification's best sighting is the earliest of the strongest |
| WifiScan.GatherIsTopTwelve | src/net/wifi.c:612-649 | after any sightings names are distinct, each entry is its name's best sighting with what the station can use of its security, and a name seen but missing is no stronger than any of twelve entries |
| WifiScan.TakeKeepsTopTwelve | src/net/wifi.c:612-649 | each sighting keeps that, whether ignored, replaced, evicting or appended |
| WifiScan.EmbeddedZeroIsListedTwice | src/net/wifi.c:617-627 | a name with a zero byte inside is not found again |
| WifiScan.SortIsStable | src/net/wifi.c:651-663 | the final order is descending and a rearrangement that keeps the order within each strength |
| WifiScan.SortedListIsTopTwelve | src/net/wifi.c:612-663 | the published list is the top twelve, strongest first |
| WifiScan.InsertAt | src/net/wifi.c:653-661 | insertion lands where everything behind is weaker and what is in front is not |
| WifiScan.ScanList.Add | src/net/wifi.c:612-649 | the in-place update is the specification's step |
| WifiScan.ScanList.SortInPlace | src/net/wifi.c:651-663 | the in-place sort is the specification's |
| WifiScan.ScanList.StartScan | src/net/wifi.c:588-610 | a running scan is left alone; otherwise the whole list is blanked and scanning, or failed when the request is refused; every list published has the next number |
| WifiScan.ScanList.OnResult | src/net/wifi.c:669-674 | results count only while a scan is active |
| WifiScan.ScanList.OnDone | src/net/wifi.c:675-685 | the end of an active scan publishes the sorted list of exactly the sightings since its start; any other end changes nothing |
| WifiPortal.HasAuthorization | src/net/wifi_portal.c:66-79 | authorised exactly when some captured header has the name, whatever its case, and the value 1 |
| WifiPortal.ChunkingIndependent | src/net/wifi_portal.c:193-238 | however a body is cut, the handler sees it completed once and whole exactly when authorised and fitting, otherwise never, and the buffer ends empty |
| WifiPortal.AnsweredOnce | src/net/wifi_portal.c:230-238 | a request that fits is answered once: by its handler for the whole body if authorised, and forbidden if not |
| WifiPortal.RequestsIndependent | src/net/wifi_portal.c:193-238 | over any requests one after another, completed or aborted by the server part-way, the bodies a handler sees complete are those of the authorised requests that fit, each whole and its own |
| WifiPortal.CallsIndependentIff | src/net/wifi_portal.c:193-238 | every call of a handler, notices of ends included, is one its request causes by itself, exactly unless a request aborted before its first chunk follows an authorised one never closed |
| WifiPortal.StaleNotice | src/net/wifi_portal.c:201-209 | two such requests, the second of which nobody authorised |
| WifiPortal.Endpoint.PostHandler | src/net/wifi_portal.c:193-238 | the in-place handler takes the specification's step, status of the answer included, and nothing stays behind the length |
| WifiPortal.Endpoint.Reset | src/net/wifi_portal.c:57-64 | the wipe empties the buffer |
| WifiPortal.CredentialsRoundTrip | src/net/wifi_portal.c:127-156 | credentials come back as entered exactly when their lengths are plausible and the SSID has no colon |
| WifiPortal.SubmittedIsTheBody | src/net/wifi_portal.c:127-156 | whatever is submitted joins back to the body |
| QrHandoff.StepKeeps | src/camera/qr_scanner.c:55-264 | every atomic step of camera thread, decoder thread and callers keeps the invariant |
| QrHandoff.SnapshotStable | src/camera/qr_decoder.c:73-124 | while a frame is decoded nothing writes the snapshot or its session |
| QrHandoff.FramesDecodedOnce | src/camera/qr_decoder.c:73-124 | accepted frames are consumed once each, in order, whole and under their own session, or dropped when decoding cannot begin |
| QrHandoff.DroppedWhenItFails | src/camera/qr_decoder.c:73-124 | frames are dropped exactly as often as the decoder could not begin |
| QrHandoff.OneResultPerSession | src/camera/qr_scanner.c:55-81 | at most one result is recorded per session, from a frame accepted in it |
| QrHandoff.CopyIsOurs | src/camera/qr_scanner.c:305-319 | a copy that succeeds for a session other than zero is of a frame of that session |
| QrHandoff.AnnouncedCanBeCopied | src/camera/qr_scanner.c:189-246 | an announced result can be copied until the next start draws its number: it is the last one recorded, of the current session |
| QrHandoff.EndIsAnnounced | src/camera/qr_scanner.c:121-219 | in every run the end of a session is announced as failed exactly when it met an error, and otherwise with a result exactly when one was recorded for it, which can then be copied |
| QrHandoff.FoundIsRecorded | src/camera/qr_scanner.c:55-81 | a code found is recorded exactly when its session is the current one and still wants it, and then it wants no more |
| QrHandoff.NothingStale | src/camera/qr_scanner.c:222-246 | once a start has cleared the result, none of an earlier session is left |
| QrHandoff.CanDeliver | src/camera/qr_scanner.c:121-319 | for every frame there is a run that ends with its code announced and copied |
| QrHandoff.RunKeeps | src/camera/qr_scanner.c:55-319 | the invariant holds after every run |
| QrHandoff.StopCanStrand | src/camera/qr_scanner.c:248-264 | a run after which the scanner is stopping with nothing left to stop |
| QrHandoff.DoomedForever | src/camera/qr_scanner.c:221-264 | once that has happened, or a stop that makes it happen is under way, no run starts it again |
| QrHandoff.StartableIff | src/camera/qr_scanner.c:189-264 | in every reachable state some run of the threads leads to an accepted start, exactly unless the scanner is stranded or about to be |
| QrHandoff.StartableAfterStopIff | src/camera/qr_scanner.c:248-264 | after a stop that saw it run, exactly when the camera thread has not announced its end since the stop looked |
| QrHandoff.StopWinds | src/camera/qr_scanner.c:248-264 | every stop of a session that has not ended, unless doomed, takes the request back while the camera thread is still at work |
| QrHandoff.StopEnds | src/camera/qr_scanner.c:121-219 | from then on every run in which the camera thread takes as many steps as rows and twelve more passes through the end of the session, whatever anyone does, and takes no frame if the camera thread had not looked yet |
| QrHandoff.NeverStuck | src/camera/qr_scanner.c:121-219 | and the camera thread can always step, or waits for a lock whose holder can |
| QrFrame.CropIsCentred | src/camera/qr_decoder.c:147-155 | the crop is never empty, lies inside and is centred to a pixel |
| QrFrame.SnapshotSizeFits | src/camera/qr_decoder.c:136-175 | for a supported format the later size checks cannot fail |
| QrFrame.CropInside | src/camera/qr_decoder.c:215-220 | every row copied lies inside the frame |
| QrFrame.ImageAt | src/camera/qr_decoder.c:49-55 | each gray pixel is that of the frame's pixel at the same place of the crop |
| QrFrame.BrightnessIsFaithful | src/camera/qr_decoder.c:49-55 | the six green bits become eight over the whole scale, in order and recoverable |
| QrFrame.QrDecoder.CopyCrop | src/camera/qr_decoder.c:215-220 | the row loop stays in bounds and leaves exactly the crop in the snapshot |
| QrFrame.QrDecoder.Convert | src/camera/qr_decoder.c:98-105 | the nested loops stay in bounds and leave exactly the gray image |

## Left out

- Cryptography: SCP03, AES, CMAC, SHA-256 and key derivation are arbitrary functions or failures; nothing is claimed of them.
- NxpChip.Bus.Transceive: the chip's sessions, policies and counters are modelled, its other object kinds are not.
- NxpStore.Store.Random: the salt is arbitrary bytes; its distribution is not modelled.
- EntropyCollector.Collector.Dispatch: the context and the record table are values in one field, updated as a whole; the hash operation is its message so far; the camera and Fusion threads that call feed are not modelled.
- BusPool.StepKeeps: buffers are numbered rows of bytes and chains are lists of numbers, not linked structures in memory; taking a buffer, queueing and returning a whole chain are single steps.
- BusPayload.Client.Submit: a wait with a timeout is one look at the queue or the pool after any steps of other threads.
- CoreEffects.Core.Execute: the wallet runtime is a finite list of answers fixed beforehand, which covers every run in which the core asks it finitely often; the frame parser takes any bytes off the front of its buffer; a sum of fragment lengths beyond the address space cannot arise.
- CoreEffects.CoreThread.Run: whether the error reply to a refused command finds room in its queue is not modelled.
- CoreEffects.CoreThread.RejectUnpublished: that the loop ends rests on the wallet's finite script; a wallet that answers every rejection with another announcement that fails would keep it going.
- CoreEffects.CoreThread.RouteEffect: what transports do with a frame, and the contents of a confirmation beside its id, are not modelled.
- FidoExchange.Client.Request: cancelling a confirmation, from outside (fido2_up_cancel) or after a time-out, is not modelled.
- FidoExchange.ReplyIsOurs: replies more than 2^32 request numbers late may be mistaken for new ones, as the ids allow.
- FidoExchange.Client.RequestIdNext: that it ends rests on other threads coming between only finitely many of its tries.
- UartReceive.StepKeeps: an overrun of the hardware FIFO loses bytes before they are received here.
- ImuTimestamps.Acquisition.Turn: sensor fusion, statistics and publishing of samples are not modelled.
- WifiScan.ScanList.StartScan: clearing the list and taking a result are single steps; a failing publication is not modelled.
- WifiPortal.Endpoint.PostHandler: hostname, reboot and firmware endpoints are not modelled.
- QrHandoff.StepKeeps: session numbers do not wrap at 2^32; decoding itself is any number of reports per image; the preview buffer is not modelled.
- Connection management, MQTT, HTTP, Bluetooth, USB descriptors, display pages, audio and device registers would only add members without deep invariants.
