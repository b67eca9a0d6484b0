# Agent lanes, modelled and proved

Each chat agent of the cockpit is reached through a *lane*: one long-lived connection, a durable session row, a
delivery cursor, a health record, and the buffers that bound what is sent and kept. The code under `src/chat` (and
the `src/memory` modules it relies on) is asynchronous. Here every JavaScript segment between two awaits is one
atomic step, steps of different calls interleave freely, and what a step does to the state is a function that both a
class method and an event of a transition system use: the method's `ensures` equates the object's new view with that
function and says outright what becomes of each field, and the theorems are about every sequence of enabled events. What
the program decides (whether a start is reused, a prompt is sent, a briefing carried, a lane admitted, a turn ended) is
also stated from outside, in the arguments of the decision or over every run, without naming the function that decides.

| files | what they model |
|---|---|
| `LaneHold`, `LaneHoldWorld`, `LaneHoldSteps`, `LaneHoldRuns` | the held connection of one lane and everything that interleaves with it: openers, handshakes, drops, closes, close ladders, deaths, self-heals |
| `LaneTurns`, `LaneSegments`, `LaneSends`, `LaneTurnRuns`, `LaneAgreement`, `LaneDisagreement` | turns acquiring a session through the single-flight cache, with budgets, supersession and cancels, on top of the connection; which of them send, and how often; when row, acquisition and hold agree, and runs in which they do not |
| `CarrierDelta`, `LaneState`, `Delivery` | what a prompt carries of the ledger, the durable rows, and which entries an agent has been told |
| `Availability`, `AvailabilityStore`, `AvailabilityRuns` | whether a lane may be sent to, the gate, the recorder, and how often a dead lane is probed |
| `PtySession`, `PtySessionRuns`, `PtyWatchdog` | the turn queue and child of a pty session, and its polling loop |
| `PtyBinding`, `PtyBindingReads`, `PtyBindingLog`, `PtyBindingReader` | the incremental reader of an agent's session log |
| `Json`, `JsonSound`, `TranscriptStamp` | a stack machine for JSON (sections 2 to 7 of RFC 8259), and the stamp answered from a transcript's head |
| `FrameSafeCut`, `PromptBudget`, `PromptWindow` | the cut that splits no untrusted frame, the token budget, the recent window |
| `FailureLog`, `FailureLogRuns` | the capped log of memory failures |
| `TurnText` | what each connection generation delivered in its open turn |
| `TranscriptWrites`, `TranscriptWriteRuns` | saves of one transcript, one at a time |

## Where the code does not do what it says

Each is proved of the code as it is, with the exact condition under which the promised behaviour holds.

- **Single flight** (`src/chat/lane-acquire.ts:230`, `:259`). The budget branch deletes the cache entry without looking
  whose it is. A step keeps single flight if and only if it is not a take-over that finds another attempt's entry
  (`LaneAgreement.FlightKeptExactly`). One foreground call at a time, with no background call opening anything while it
  is parked, is enough (`DisciplinedRunsAreClean`), and both halves are needed: two foreground calls that park on one
  boot open break it (`LaneDisagreement.TwoForegroundCallersBreakSingleFlight`), and so does one that parks on a boot
  open that fails just before another starts (`OneForegroundCallerBreaksSingleFlight`). Either way the run goes on to
  harm: the durable row ends up naming one session while the newest acquisition and the hold name another
  (`TwoForegroundCallersDisagree`, `OneForegroundCallerDisagrees`).
- **A catch-up that failed** (`src/chat/lane-carrier.ts:275-280`). A new generation whose first prompt fails is resumed,
  not fresh, so the next prompt starts from the dead generation's cursor and the new process is never told what lies
  before. Delivery over the lane's lifetime holds in every run (`Delivery.DeliveredAtLeastOnce`); to the
  generation the cursor names it fails (`SomeRunSkips`), and after the first accept of a generation it holds if and only
  if nothing lay at or below the position the prompt started from (`FirstAcceptExactly`).
- **A giant operator message** (`src/chat/lane-carrier.ts:475-480`) carries nothing, and its acceptance is said to
  authorize nothing. It commits the position it started from, which on a fresh generation is 0: the cursor goes back,
  from any lane (`Delivery.GiantOnFreshGoesBack`). A prompt that carries nothing leaves the cursor where it was if and
  only if its turn resumed and the cursor could be read, or the cursor was at 0 (`EmptyPromptStaysExactly`).
- **A summary larger than its budget** (`src/memory/delta-composer.ts:67-68` against `:83-88`). The header says the summary
  is still returned; with no entry left to drop, the code returns an empty block if and only if the summary exceeds the
  budget (`CarrierDelta.SummaryAloneExactly`), and an operator message of 22,400 bytes is enough for that
  (`OverlongSummaryIsNotCarried`).
- **The six-hour ceiling** (`src/chat/lane-availability.ts:158-165`, `:257`). A blocked send refreshes `updatedMs`, so the
  ceiling counts from the last blocked send (`AvailabilityRuns.CeilingCountsFromLastUpdate`), and sends less than six
  hours apart keep a lane blocked right up to its deadline (`ImpatienceStarvesTheCeiling`).
- **The cooldown after a failed recovery** (`src/chat/lane-availability.ts:273-277`) is kept if and only if no vendor window
  ends inside it (`Availability.FailureRestsExactly`).
- **Only a success makes a lane ready** (`src/chat/lane-availability.ts:334-335`). A lane that is not ready becomes ready
  if and only if a dispatch succeeds or a restart reads a ready mirror (`AvailabilityRuns.ReadyOnlyAfterSuccess`). The
  second happens from the very first failure on, when its write is refused (`FailedWriteForgetsDeath`); with every
  write through it never does (`DeadUntilSuccess`).
- **The watchdog calls the reply cumulative** (`src/chat/pty-session.ts:257`), but `BindingReader.poll` returns text since
  the last poll. A stream in pieces no longer than the first is killed at the idle cap, however steady
  (`PtyWatchdog.SteadyRepliesAreCapped`), and a reply read while the status is still busy never completes its turn unless
  the log grows (`PtyBindingReader.ReplyReadWhileBusyIsLost`).
- **Disposal** (`src/chat/pty-session.ts:341-352`) does not stop later submits (`PtySessionRuns.DisposedStillAccepts`).
  It kills the child of the turn in flight, and that turn never hears of it, in any run: it ends in a reply, an abort
  or the idle cap, never as a dead child (`DisposedTurnHearsNoExit`, `KilledChildExitsUnheard`).
- **The prompt limit** (`src/chat/headless-prompt.ts:395-406`). The marker is added behind the fit test. Without a
  redirect the prompt is exactly what the test measured and the marker's 0, 2 or 3 characters (1 beside nothing at all),
  so it stays within 24,000 if and only if the test left room for them (`PromptWindow.PromptFitsExactly`); fixed parts
  that fill the limit and any message before them make 24,003 (`FullPartsGoOver`, `SomePromptIsOver`).
- **Rotations of the failure log.** At most one rotation per 32 KiB written, and one more, holds of the program's own
  lines below 2,490,145 bytes (`FailureLogRuns.RotationsOfFailureLines`) and not at that size: there is a run of lines of
  350 to 856 bytes with 77 rotations, the last for a line the disk then refuses (`RotatesMoreThanOncePerKeep`). What holds at every size is that a rotation costs
  31,914 bytes or more, and that run attains it with every cycle, so no larger cost can be promised. No condition on a
  single write separates the two, which is why the bound is given by size and cost.
- **A rewrite of the failure log that the disk refuses half way** keeps the oldest bytes of the tail and loses the
  newest record (`FailureLogRuns.TornRewriteLosesTheNewest`); without a torn write the log is always the end of what was
  recorded, and with one it is still within its cap (`LogIsCappedTail`).
- **The fast stamp** (`src/chat/transcript-read.ts:190-194`) is the whole file's whenever the whole file loads, and it is
  also given for a file that is broken or misshapen behind its head: the two reads tell the same if and only if the head
  gave no stamp or the whole file is a transcript (`TranscriptStamp.BoundedOutcomeExactly`).
- **Eviction order** (`src/chat/lane-send-outcome.ts:87-88`). The first key is the oldest turn, not the lowest generation:
  a connection that sends again goes last (`TurnText.SendingAgainGoesLast`).
- **The self-heal** (`src/chat/lane-hold.ts:166`, `src/chat/lane-hold-send.ts:66`) releases whatever is held when it comes,
  which need not be the connection that failed; it is an event of its own, and `AcquireAgrees` says exactly what it costs.

## Assumptions

- `LaneHoldWorld.FreshId`: a bridge's `newSession` never returns an id this lane has used. It is needed:
  `LosesLiveExactlyOnRepeatedId` says what happens without it. Dead connections stay dead.
- `PtyBindingReads.Settled`: in the final log, a prefix of a line that parses leaves only blanks behind it. A prefix such
  as `1` of `12` does not; the records agents write are objects, whose proper prefixes never parse.
- `PtyWatchdog.Lives`: a sleep moves the clock by at least `pollMs`, and replies have a longest length.
- `FailureLogRuns.FailureLines`: what `failureLine` writes (`src/chat/memory-failure-log.ts:108`,
  `src/shared/room-notice.ts:77`), one line of 48 to 856 bytes. The cap holds of any lines up to 32 KiB (`Lines`).
- `CarrierDelta.Minted`: ledger positions are at least 1 and strictly increase.
- `PromptBudget.UniqueKeys`: one section per key. `TranscriptStamp.UniqueNames`: no name twice in the transcript's object.

## Model

| member | source | states |
|---|---|---|
| LaneHold.LaneHold.Start | src/chat/lane-hold.ts:144-157 | a `start` takes the next ticket and counts itself in flight; it answers from the hold if and only if that is alive and of the asked session |
| LaneHold.LaneHold.FinishStart | src/chat/lane-hold.ts:155-157 | a settled `start` is no longer counted, and nothing else changes |
| LaneHold.LaneHold.DiscardOpening | src/chat/lane-hold.ts:207-216 | the connection leaves `opening`, and goes to the close ladder if and only if it is alive |
| LaneHold.LaneHold.OpenFreshLanded | src/chat/lane-hold.ts:178-201 | an opened connection is registered, and kept if and only if no drop or close overtook its ticket |
| LaneHold.LaneHold.Replace | src/chat/lane-hold.ts:218-228 | the hold becomes the next one; the prior goes to the ladder unless it is dead or of the same session |
| LaneHold.LaneHold.Install | src/chat/lane-hold.ts:230-247 | only the newest ticket is installed; an older one's live connection is closed instead |
| LaneHold.LaneHold.Supersede | src/chat/lane-hold.ts:266-271 | takes a ticket, marks all tickets so far superseded, and hands over and empties `opening` |
| LaneHold.LaneHold.Drop | src/chat/lane-hold.ts:296-311 | supersedes, releases the hold, closes exactly the live ones of both, and answers whether anything was reached |
| LaneHold.LaneHold.Close | src/chat/lane-hold.ts:313-327 | supersedes, releases the hold and sends every connection, dead or alive, down its ladder |
| LaneHold.LaneHold.RecordOrphan | src/chat/lane-hold.ts:336-339 | the pid joins the orphans, and nothing else changes |
| LaneHold.LaneHold.ReportClose | src/chat/lane-hold.ts:325-333 | hands back every orphan not yet handed back together with its own survivors, once |
| LaneHoldRuns.RunKeeps | src/chat/lane-hold.ts:143-334 | the whole invariant of hold, starts, ladders and closes is kept by every run |
| LaneHoldRuns.HoldSafety | src/chat/lane-hold.ts:230-247 | in every run a hold is newer than every drop and close, installed epochs strictly increase, and `pendingStarts` counts the starts in flight (`HoldSafe`) |
| LaneHoldRuns.ConnectionsConserved | src/chat/lane-hold.ts:207-228 | in every run every live connection is opening, held or leaving, no two of these at once; `opening` holds only what an unsuperseded handshake owns; every orphan was reported or is still recorded (`Conserved`) |
| LaneHoldRuns.NothingLeaksAtRest | src/chat/lane-hold.ts:313-334 | with nothing in flight, a live connection is held or was reported as an orphan |
| LaneHoldRuns.SupersededNeverHeld | src/chat/lane-hold.ts:249-271 | nothing started and no connection opened before a drop or close is ever held after it, even if its opener had not returned |
| LaneHoldRuns.TicketsCounted | src/chat/lane-hold.ts:144-146 | the ticket counter is exactly the number of starts, drops and closes |
| LaneHoldRuns.InstallsExactlyWhenNewest | src/chat/lane-hold.ts:341-371 | a finished handshake is installed and reported as open if and only if no start, drop or close came after its start; otherwise the hold is untouched |
| LaneHoldRuns.DropAnswersTruthfully | src/chat/lane-hold.ts:95-103 | in every run a drop answers true if and only if there is a hold or a start in flight |
| LaneHoldRuns.StartAnswersExactly | src/chat/lane-hold.ts:395-404 | in every run a `start` answers from the hold if and only if it asks for the session of a held connection that is alive; any other opens a connection, on a ticket nothing had before (`AnswersExactly`) |
| LaneHoldRuns.OpenerKeptExactly | src/chat/lane-hold.ts:178-201 | a connection an opener delivers goes on to its handshake if and only if no drop or close overtook its ticket; otherwise the start throws and the connection is closed |
| LaneHoldRuns.FailuresAnswer | src/chat/lane-hold.ts:420-451 | a failed opener throws; a failed handshake throws if a create was asked for, and reports a failed resume otherwise |
| LaneHoldRuns.RefusedExactly | src/chat/lane-hold.ts:355-371 | a finished handshake reports a failed resume if and only if a newer ticket was taken, and then its live connection is closed |
| LaneHoldRuns.SettledDelivers | src/chat/lane-hold.ts:155-157 | a start delivers what it decided, and only then is it no longer counted |
| LaneHoldRuns.LadderEndsExactly | src/chat/lane-hold.ts:207-228 | a ladder leaves its connection dead, or reported as an orphan if it survived, and nothing else moves |
| LaneHoldRuns.CloseLadderEndsExactly | src/chat/lane-hold.ts:313-334 | a ladder of a `close` leaves its connection dead, or waiting for the report if it survived |
| LaneHoldRuns.CloseReturnsExactly | src/chat/lane-hold.ts:325-333 | a `close` that is over hands back its survivors and every orphan recorded so far, and records none any more |
| LaneHoldRuns.SupersedingClosesExactly | src/chat/lane-hold.ts:296-327 | a drop closes exactly the live connections open or held, a close all of them, each on a ladder of its own |
| LaneHoldRuns.HealAndDeathExactly | src/chat/lane-hold.ts:159-170 | a self-heal releases the hold and closes its connection if that lives; a death is no more than that |
| LaneHoldRuns.LosesLiveExactlyOnRepeatedId | src/chat/lane-hold.ts:223-225 | the same-session early return loses a live connection if and only if a create is given the id of the session held alive |
| LaneTurns.AcquireCache.Enter | src/chat/lane-acquire.ts:285 | an attempt becomes the one in flight |
| LaneTurns.AcquireCache.Supersede | src/chat/lane-acquire.ts:258-259 | the joined attempt stands down and the entry goes, whoever it names |
| LaneTurns.AcquireCache.Leave | src/chat/lane-acquire.ts:280-284 | a settled attempt clears the entry only if it is its own |
| LaneSegments.CallEndsOrWaits | src/chat/lane-acquire.ts:242-250 | a call whose signal has fired ends; one that finds an attempt in flight waits for it, a foreground one against its budget |
| LaneSegments.CallBegins | src/chat/lane-acquire.ts:274-287 | any other call makes an attempt of its own the one in flight, and waits for it |
| LaneSegments.CallStartsExactly | src/chat/lane-acquire.ts:353-375 | that attempt calls `start` once: with the stored session unless it was asked for a fresh one, there is none, or its binding changed, and without one otherwise |
| LaneSegments.ParkExactly | src/chat/lane-acquire.ts:245-250 | a wait that ends leads to the session or past the budget, or ends the turn if its signal fired meanwhile |
| LaneSegments.TakeOverExactly | src/chat/lane-acquire.ts:258-265 | past its budget a turn has the attempt it joined stand down and makes one of its own that never resumes, nor starts at all once its signal has fired |
| LaneSegments.ContinueStandsDown | src/chat/lane-acquire.ts:304-310 | an attempt whose `start` threw, whose signal has fired or that was superseded fails and leaves everything else as it was |
| LaneSegments.ContinueResumesExactly | src/chat/lane-acquire.ts:311-345 | any other gives the stored row when its resume came back, and goes on to create when that failed |
| LaneSegments.ContinueCreatesExactly | src/chat/lane-acquire.ts:376-391 | a create that came back writes its session as the next generation of the row, and gives that row |
| LaneSegments.PublishExactly | src/chat/lane-acquire.ts:280-284 | an attempt that is over tells everyone what it decided and leaves the cache to whoever else is in it |
| LaneSegments.AbortExactly | src/chat/lane-carrier-cancel-send.ts:62-71 | a signal reaches its own turn and nothing else |
| LaneSegments.HoldExactly | src/chat/lane-hold.ts:143-334 | what happens to the connection moves the connection and nothing of the turns |
| LaneSegments.RowIsLastWritten | src/chat/lane-acquire.ts:383-391 | in every run the durable row is the last one written, and its generation is how often one was |
| LaneSends.PromptsSentOnce | src/chat/lane-carrier.ts:420-439 | in every run a prompt is sent for foreground turns only, at most once each and directly behind its own attempt row, and no attempt row is written without its prompt |
| LaneSends.LiveTurnSends | src/chat/lane-carrier-cancel-send.ts:62-71 | in every run a turn that has its session writes its attempt row and sends its prompt, for the first time, if and only if it is a foreground turn whose signal has not fired |
| LaneSends.ReturnedSendIsRecorded | src/chat/lane-carrier-cancel-send.ts:122-145 | in every run, once a send returns, its cursor was advanced if and only if it was accepted, and its attempt is marked if and only if it was accepted with the signal fired |
| LaneTurnRuns.TurnsMoveTheWorldByEvents | src/chat/lane-acquire.ts:295-392 | every segment of a turn moves the connection by one event of its own transition system or not at all, so all hold theorems apply to turns |
| LaneTurnRuns.TicketsRecorded | src/chat/lane-acquire.ts:304 | a segment of a turn issues a ticket if and only if it calls `start`, and then the next one |
| LaneTurnRuns.LaneRunKeeps | src/chat/lane-acquire.ts:239-392 | the hold's invariant and the tickets' issuers are kept by every interleaving of turns, cancels and connection events |
| LaneTurnRuns.CancelledTurnIsInert | src/chat/lane-carrier-cancel-send.ts:55-71 | a turn whose signal fires before its prompt left never again calls `start` or `send`, writes an attempt, or touches or writes the lane row |
| LaneTurnRuns.SupersessionOutlastsRun | src/chat/lane-hold.ts:266-268 | no interleaving of turns lowers the supersession mark |
| LaneTurnRuns.CancelledTurnHoldsNothing | src/chat/lane-acquire.ts:365-376 | once such a turn's hold is dropped, no connection any of its starts opened is held at any later point |
| LaneTurnRuns.SupersededAcquireIsInert | src/chat/lane-acquire.ts:280-310 | in every run a superseded attempt never starts a session or touches or writes the row, and neither its return nor its `finally` moves the cache entry that replaced it |
| LaneAgreement.FlightKeptExactly | src/chat/lane-acquire.ts:244-268 | a step keeps single flight if and only if it is not a take-over that clears another attempt's entry |
| LaneAgreement.TakeOverKeepsFlightExactly | src/chat/lane-acquire.ts:258-265 | the same of the budget branch alone |
| LaneAgreement.DisciplinedRunsAreClean | src/chat/lane-acquire.ts:230-237 | one foreground call at a time, and no background open beside a parked one, never clears another's entry |
| LaneAgreement.CleanRunKeeps | src/chat/lane-acquire.ts:239-392 | single flight and the agreement of row, answers and connection are kept by every run without such a take-over |
| LaneAgreement.AtMostOneWriter | src/chat/lane-acquire.ts:274-287 | in such a run at most one attempt could still write, and it is the one a new caller joins |
| LaneAgreement.AcquireAgrees | src/chat/lane-acquire.ts:311-320 | while the ticket an acquisition came back on is the newest, the durable row is the row it returned, and its session is the one held if and only if no self-heal released the hold since that ticket was decided |
| LaneDisagreement.TwoForegroundCallersBreakSingleFlight | src/chat/lane-acquire.ts:258-265 | for all turns and attempts, a run from an empty lane in which two foreground calls leave two attempts that may both write |
| LaneDisagreement.TwoForegroundCallersDisagree | src/chat/lane-acquire.ts:258-265 | that run goes on until the row names the older ticket's session and the newest acquisition and the hold name the newer one's |
| LaneDisagreement.BothWriteDisagree | src/chat/lane-acquire.ts:375-391 | the same from any lane in which two foreground turns ran out of budget on one attempt |
| LaneDisagreement.OneForegroundCallerBreaksSingleFlight | src/chat/lane-acquire.ts:244-268 | a run with one foreground call: its boot open fails, another starts before it wakes, and its take-over clears that one's entry |
| LaneDisagreement.OneForegroundCallerDisagrees | src/chat/lane-acquire.ts:244-268 | that run goes on until the row names the boot open's session and the turn's acquisition and the hold another |
| CarrierDelta.AfterIsFilter | src/memory/ledger.ts:186-209 | the tail read past a position is exactly the entries above it |
| CarrierDelta.SelectTailWithinBytes | src/memory/ledger.ts:211-230 | the loop from the newest entry computes the specified tail |
| CarrierDelta.KeepsLongestTail | src/memory/ledger.ts:217-228 | the tail kept fits its bytes, and every longer one does not |
| CarrierDelta.LedgerAfterAccounts | src/memory/ledger.ts:155-173 | whatever the limits, every entry past the position is delivered or in the reported overflow |
| CarrierDelta.RenderBlock | src/memory/delta-composer.ts:98-115 | the block's size is its parts joined, and a boundary statement is in it if and only if a prior-session operator entry was framed |
| CarrierDelta.BlockWeighs | src/memory/delta-composer.ts:98-115 | a block weighs its summary, its entries and the line feeds between them, an operator entry of this session as written and every other one framed, and one boundary statement if an earlier operator entry is among them |
| CarrierDelta.ComposeDelta | src/memory/delta-composer.ts:70-96 | the drop loop computes the specified block |
| CarrierDelta.DropsNoMoreThanNeeded | src/memory/delta-composer.ts:74-82 | entries go oldest first, and every longer tail was over the budget |
| CarrierDelta.EmptyOnlyWhenNothingFits | src/memory/delta-composer.ts:74-88 | the block is empty if and only if there was nothing to say or it fits for no number of dropped entries, from none to all |
| CarrierDelta.SummaryAloneExactly | src/memory/delta-composer.ts:83-88 | with no entry to drop, a summary is left out if and only if it alone exceeds the budget |
| CarrierDelta.OverlongSummaryIsNotCarried | src/chat/lane-carrier.ts:329-336 | an operator message of 22,400 bytes and one overlong entry: the overflow is pending and the block empty |
| CarrierDelta.ComposeAccounts | src/memory/delta-composer.ts:63-69 | the budget is never exceeded, and no entry past the position is dropped without being in the summary |
| CarrierDelta.SummaryIsExact | src/memory/ledger.ts:232-250 | the range of a summary holds exactly the entries it counts, and every delivered entry lies behind it |
| CarrierDelta.BudgetWithinPool | src/memory/carrier-budget.ts:76-105 | the delta's budget with its headroom never takes bytes reserved for operator, setup or briefing |
| CarrierDelta.BudgetExactly | src/memory/carrier-budget.ts:76-105 | the budget in the numbers of the source: what is left of 24,000 goes to 2,000 of headroom if an overflow is pending, then to at most 10,000 of entries, or 8,000 on a fresh session; a message is giant from 22,501 bytes on |
| CarrierDelta.FirstLookExactly | src/chat/lane-carrier.ts:302-318 | headroom is reserved if and only if more than 30 entries or 10,000 bytes of them are pending |
| CarrierDelta.DeliversLongestTail | src/chat/lane-carrier.ts:302-337 | the prompt shows the last entries past its base, and as many as it may: one more would be over 30 or 10,000 bytes on a resumed session, over 20 or 8,000 on a fresh one, or make the block too long |
| CarrierDelta.PromptCovers | src/chat/lane-carrier.ts:475-483 | an accepted prompt moves the cursor over exactly the entries it shows or summarizes, to the newest or not at all |
| CarrierDelta.GiantOperatorCommitsItsBase | src/chat/lane-carrier.ts:476-480 | a giant operator message carries no entry and commits the position it started from |
| LaneState.LaneStore.SetBriefingCarry | src/memory/lane-cursor.ts:73-87 | arms the carry and keeps the position; a missing cursor gets the sentinel |
| LaneState.LaneStore.BumpGeneration | src/memory/lane-state.ts:192-233 | the next generation, its session, the armed carry and the abandonment of older intents, all or nothing |
| LaneState.LaneStore.RecordPromptAttempt | src/memory/lane-attempts.ts:81-98 | a new intent row in flight, and nothing else |
| LaneState.LaneStore.ResolveAttemptAccepted | src/memory/lane-attempts.ts:164-186 | flips the row if and only if it is in flight under the claimed session and generation |
| LaneState.LaneStore.AcceptCommit | src/memory/lane-state.ts:249-289 | the refusals in the code's order with nothing written, or cursor and intent together |
| Delivery.DeliveredAtLeastOnce | src/chat/lane-carrier.ts:369-418 | in every run of failed, crashed, joined and accepted sends, every entry at or below the cursor was carried by some accepted prompt |
| Delivery.AcceptOwesExactly | src/chat/lane-carrier.ts:475-483 | an accept leaves its generation told up to its new position if and only if it was told up to the prompt's base |
| Delivery.DeliveredWithinGeneration | src/chat/lane-carrier.ts:275-284 | in a run whose prompts start at their own generation's position, the generation the cursor names was told everything up to it |
| Delivery.FirstAcceptExactly | src/chat/lane-carrier.ts:275-284 | after the first accept of a generation that holds if and only if nothing lay at or below the base |
| Delivery.FailedCatchUpSkips | src/chat/lane-carrier.ts:420-439 | from any lane with a past, a failed catch-up followed by a resumed send leaves the new generation untold of it |
| Delivery.SomeRunSkips | src/chat/lane-carrier.ts:280 | such a lane is reached from an empty one |
| Delivery.EmptyPromptStaysExactly | src/chat/lane-carrier.ts:475-483 | a prompt that carries nothing, accepted at once, leaves the cursor where it was if and only if its turn resumed and the cursor could be read, or the cursor was at 0 |
| Delivery.GiantOnFreshGoesBack | src/chat/lane-carrier.ts:275-284 | from any lane past 0, a new generation whose first prompt is a giant operator message takes the cursor back to 0 |
| Delivery.BriefingNeverLost | src/memory/lane-cursor.ts:89-113 | in every run the carry is off only if the current generation accepted a prompt with the briefing |
| Delivery.BriefingCarriedExactly | src/chat/lane-carrier.ts:266-267 | in every run a prompt carries a ready briefing if and only if its cursor could not be read, or no prompt with the briefing was committed since the generation was opened or last compacted |
| Delivery.CommitAdvancesExactly | src/memory/lane-state.ts:249-289 | in every run an accepted prompt's commit advances the cursor if and only if no generation was opened since its turn acquired |
| Availability.GateKeeps | src/chat/lane-availability.ts:253-268 | the gate keeps a record well kept: cause and deadline on every non-ready record, a reset instant only for a spent quota and only a reported one equal to the deadline |
| Availability.ResultKeeps | src/chat/lane-availability.ts:191-216 | so does recording an outcome |
| Availability.BlockedSendKeepsDeadline | src/chat/lane-availability.ts:248-258 | a blocked send moves neither deadline, reset instant nor cause |
| Availability.DeadlineAlwaysAdmits | src/chat/lane-availability.ts:178-184 | from any blocked record, an older build's included, a send at or after its deadline is the recovery attempt |
| Availability.FailureRestsExactly | src/chat/lane-availability.ts:288-332 | after a failed recovery the lane is blocked for the whole cooldown if and only if no vendor window ends inside it |
| Availability.OnDispatchFailure | src/chat/lane-availability.ts:191-246 | from any record, a spent quota with a window ahead shows that instant and is probed then; any other classified failure shows none and is probed after the cooldown; an unclassified one changes nothing |
| Availability.OnRetryFailed | src/chat/lane-availability.ts:288-332 | a failed recovery returns to its cause; of a spent quota the known window wins when it is beyond the cooldown, else the kept one while it is ahead; without either the lane is probed after the cooldown |
| Availability.GateVerdict | src/chat/lane-availability.ts:168-184 | a stop wins; only a dead or blocked lane is held back, until its deadline or six hours after its last update |
| AvailabilityStore.LaneAvailabilityStore.Mutate | src/chat/lane-availability-store.ts:219-227 | one agent's record changes, the mirror becomes the registry if the write goes through, nothing else changes |
| AvailabilityStore.LaneAvailabilityStore.EvaluateSend | src/chat/lane-availability-store.ts:147-156 | allows and flags exactly as the gate's verdict says |
| AvailabilityStore.LaneAvailabilityStore.NoteLaneResetWindow | src/chat/lane-availability-store.ts:180-182 | remembers the last reported window of the agent |
| AvailabilityStore.LaneAvailabilityStore.NoteLaneFailure | src/chat/lane-availability-store.ts:166-176 | a given reset time wins over the remembered window; a spent quota with that instant ahead shows it and is probed then, and any other death is probed after the cooldown |
| AvailabilityStore.LaneAvailabilityStore.GateLaneOrBlock | src/chat/lane-gate.ts:89-131 | a cancelled turn writes nothing; a blocked send and a recovery attempt write their transition; an ordinary dispatch writes nothing |
| AvailabilityStore.LaneAvailabilityStore.RecordLaneDispatchResult | src/chat/lane-gate.ts:185-229 | what an outcome records, and when it writes nothing at all |
| AvailabilityStore.LaneAvailabilityStore.HandleEscapedLaneError | src/chat/lane-gate.ts:250-268 | a throw is rethrown if and only if the turn was not cancelled, and a cancelled one records nothing |
| AvailabilityRuns.AlwaysWellKept | src/chat/lane-availability.ts:168-184 | in every run, restarts and failed writes included, the record is well kept, and a blocked lane admits every send from its deadline on |
| AvailabilityRuns.FailureAdmitsExactly | src/chat/lane-availability.ts:191-216 | in every run a classified failure leaves the lane dead of it, and from when on the next send is admitted: the last reported reset of a spent quota if it is ahead, else the cooldown, or six hours without an update |
| AvailabilityRuns.FailedRecoveryAdmitsExactly | src/chat/lane-availability.ts:288-332 | in every run the same of a recovery that failed without a reason |
| AvailabilityRuns.ReadyOnlyAfterSuccess | src/chat/lane-availability.ts:334-338 | a lane that is not ready is so next if and only if a success is recorded or a restart reads a ready mirror |
| AvailabilityRuns.FailedWriteForgetsDeath | src/chat/lane-availability-store.ts:216-227 | a first failure whose write is refused, and a restart: the lane is ready and nothing succeeded |
| AvailabilityRuns.DeadUntilSuccess | src/chat/lane-availability-store.ts:66-105 | with every write through, a dead lane is ready after a run only if the run has a success, restarts or not |
| AvailabilityRuns.CancelsRecordNothing | src/chat/lane-gate.ts:133-148 | a run and the same run without its cancels leave the same record |
| AvailabilityRuns.ProbesAreSpaced | src/chat/lane-gate.ts:96-131 | dispatches that reach a dead lane are at least a cooldown apart, the first not before its deadline |
| AvailabilityRuns.ProbeRateBounded | src/chat/lane-availability.ts:96 | at most 1 + T / 15 min dispatches reach a dead lane in any stretch of T ms, however many sends arrive |
| AvailabilityRuns.CeilingCountsFromLastUpdate | src/chat/lane-availability.ts:158-184 | before its deadline a lane is probed if and only if nothing touched its record for six hours |
| AvailabilityRuns.ImpatienceStarvesTheCeiling | src/chat/lane-availability.ts:257 | sends less than six hours apart are all blocked until the deadline |
| PtySession.PtySession.Submit | src/chat/pty-session.ts:147-171 | refused when aborted or over the cap, otherwise queued last with one more link |
| PtySession.PtySession.OnQueuedAbort | src/chat/pty-session.ts:173-181 | a queued item is removed and uncounted, any other is left alone |
| PtySession.PtySession.ProcessNext | src/chat/pty-session.ts:183-192 | a link takes the head of the queue, skips an aborted one, and does nothing on an empty queue |
| PtySession.PtySession.EndTurn | src/chat/pty-session.ts:196-198 | the turn is over and uncounted |
| PtySession.PtySession.EnsureChild | src/chat/pty-session.ts:303-329 | a live child is reused; a spawned one clears the exit flag |
| PtySession.PtySession.KillChild | src/chat/pty-session.ts:331-339 | the child is forgotten before it exits |
| PtySession.PtySession.OnExit | src/chat/pty-session.ts:315-320 | only the current child's exit is heard |
| PtySession.PtySession.Dispose | src/chat/pty-session.ts:342-352 | rejects every queued item once, and only the first time |
| PtySessionRuns.QueueAccounts | src/chat/pty-session.ts:143-199 | in every run `outstanding` is the queued and the active, at most maxPending + 1; turns start in submission order; an accepted item is in exactly one of queue, turn and settled, and settled at most once; links never fall short of the queue |
| PtySessionRuns.SubmitTakenExactly | src/chat/pty-session.ts:147-171 | in every run a submit is taken, last, if and only if it is not aborted and at most maxPending items wait or run |
| PtySessionRuns.SettlementsAreTrue | src/chat/pty-session.ts:173-199 | in every run an item ends in a reply or a failure only if its turn started, as aborted only if its signal fired, as disposed only if the session was |
| PtySessionRuns.ExitHeardExactly | src/chat/pty-session.ts:303-339 | the flag goes up if and only if the current child exits, and down if and only if a child is spawned; a child is lost to its exit, a kill or the disposal alone |
| PtySessionRuns.ChainDrains | src/chat/pty-session.ts:168-199 | from every reachable idle state the remaining links settle every item ever accepted |
| PtySessionRuns.DisposedStillAccepts | src/chat/pty-session.ts:341-352 | a submit after disposal is accepted if and only if it is not aborted and the turns still counted leave room |
| PtySessionRuns.KilledChildExitsUnheard | src/chat/pty-session.ts:315-339 | from a kill with a turn in flight, in every run until the turn ends or a child is warmed up, the flag its loops read stays down |
| PtySessionRuns.DisposedTurnHearsNoExit | src/chat/pty-session.ts:342-352 | from a disposal with a turn in flight, in every run until the turn ends the flag stays down, so it cannot end as a dead child |
| PtyWatchdog.AwaitCompletion | src/chat/pty-session.ts:240-274 | the loop ends at the first pass that is aborted, dead, complete with text, or capped, asked in that order: it replies if and only if that pass is complete with text and neither aborted nor dead, and then with its text; within a bound in reply length, cap and poll interval, and `stalled` fires at most once and only when due |
| PtyWatchdog.EndsWithin | src/chat/pty-session.ts:236-239 | at most (longest + 1) * (idleCapMs / pollMs + 1) passes |
| PtyWatchdog.PollsDivide | src/chat/pty-session.ts:268-272 | the passes counted in an idle span are the span divided by the poll interval |
| PtyWatchdog.SteadyRepliesAreCapped | src/chat/pty-session.ts:257-271 | polls that return pieces no longer than the first reset the idle clock at most once, and the turn ends at the cap |
| PtyBinding.ParseLine | src/chat/pty-binding.ts:103-112 | a line gives its record, or is told to be neither a record nor blank |
| PtyBinding.WalkRecords | src/chat/pty-binding.ts:99-120 | the loop computes the specified records and offset: garbled lines are skipped, an unparsed tail is left |
| PtyBinding.RecordsAppend | src/chat/pty-binding.ts:99-120 | what a read adds does not depend on what was read before |
| PtyBindingLog.LogServesItsLines | src/chat/pty-binding.ts:92-120 | a log of whole lines serves exactly those that are JSON, without the blanks around them, in order, and leaves nothing unread |
| PtyBindingLog.BlankExactly | src/chat/pty-binding.ts:103-112 | what is trimmed: white space, line ends and the byte order mark, and nothing else |
| PtyBindingReads.ReadSplits | src/chat/pty-binding.ts:92-98 | reading a log now and the rest once it has grown serves what one later read serves |
| PtyBindingReads.ReadResumes | src/chat/pty-binding.ts:92-98 | a read stops where the grown log can be read on: at the head of a line, or behind the record of one that only gained blanks |
| PtyBindingReads.ReadsMakeOneRead | src/chat/pty-binding.ts:70-90 | so does any schedule of reads of a growing log, from any place a read may resume at |
| PtyBindingReads.IncrementalIsOneShot | src/chat/pty-binding.ts:75-120 | from the start of the log: the records of one read, each once and in order |
| PtyBindingReads.TurnServesTheRest | src/chat/pty-binding-reader.ts:42-49 | what was complete when a turn began is skipped, and all later records are served once |
| PtyBindingReader.BindingReader.Resolve | src/chat/pty-binding.ts:51-68 | the offset survives only while the pinned file is unchanged |
| PtyBindingReader.BindingReader.ReadTurnDelta | src/chat/pty-binding.ts:75-90 | serves the records past the offset, restarting a log that shrank, and moves the offset; a log that is gone serves nothing and keeps it |
| PtyBindingReader.BindingReader.BeginTurn | src/chat/pty-binding-reader.ts:44-49 | moves past what is there and forgets the busy status |
| PtyBindingReader.BindingReader.Poll | src/chat/pty-binding-reader.ts:51-63 | serves the next records; claude completes if and only if busy was seen, the status is idle or waiting, and this poll brought text |
| PtyBindingReader.TurnIsolated | src/chat/pty-binding-reader.ts:44-55 | through the reader's own state, and with the log gone at any of them: begin and polls together serve one read of the final log, and the polls none of what was there |
| PtyBindingReader.AnotherLogIsReadWhole | src/chat/pty-binding.ts:51-68 | a session that moves to another log reads that one from its start, wherever it was in the last |
| PtyBindingReader.RereadIsEmpty | src/chat/pty-binding.ts:99-120 | reading an unchanged log again serves nothing |
| PtyBindingReader.ReplyReadWhileBusyIsLost | src/chat/pty-binding-reader.ts:58-62 | once a reply is consumed, no poll of an unchanged log completes the turn, whatever the statuses |
| PtyBindingReader.BusyPollSwallowsReply | src/chat/pty-binding-reader.ts:58-62 | one poll while busy is enough for that |
| Json.ParsesBack | src/chat/transcript-read.ts:245-251 | every well-formed value, written out, parses as itself |
| JsonSound.AcceptsOnlyJson | src/chat/transcript-read.ts:245-251 | whatever is accepted is JSON: without the white space outside its strings the text is the written form of the value it is read as, and that value is well formed |
| JsonSound.ReadsBackExactly | src/chat/transcript-read.ts:245-251 | a value written out reads as itself if and only if it is well formed |
| JsonSound.BodyExactly | src/chat/transcript-read.ts:245-251 | what a string may hold between its quotes: characters from the space on, escapes, and four hex digits behind \u |
| Json.RunWithin | src/chat/transcript-read.ts:243-251 | entries read into the outermost object stay its first entries whatever text follows |
| TranscriptStamp.CandidateIsTaken | src/chat/transcript-read.ts:237-245 | wherever the candidate line stands, reading it takes it as an entry or the text is no JSON: a string or a list cannot hide it |
| TranscriptStamp.ClosingEndsTopLevel | src/chat/transcript-read.ts:243-251 | closed right behind the candidate, a text is whole only if the candidate is at the top level |
| TranscriptStamp.HeadIsPrefix | src/chat/transcript-read.ts:243-251 | the closed head's entries are the first of the whole transcript's, the candidate the last of them |
| TranscriptStamp.LaterDuplicateWins | src/chat/transcript-read.ts:239-255 | without unique names: the whole transcript's stamp is the candidate's unless a later entry repeats the name |
| TranscriptStamp.FastStampExactly | src/chat/transcript-read.ts:237-255 | of a transcript that is JSON, the head answers if and only if it is JSON once closed, names the room and carries a candidate that is not empty, and then with the candidate |
| TranscriptStamp.FastStampIsFullStamp | src/chat/transcript-read.ts:182-194 | with unique names, a stamp taken from the head is the whole transcript's top-level `updatedAt`, and the transcript is the room asked for |
| TranscriptStamp.BoundedReadAgrees | src/chat/transcript-read.ts:196-218 | so the bounded read gives the top-level stamp of the whole document, whatever candidate was found |
| TranscriptStamp.BoundedOutcomeExactly | src/chat/transcript-read.ts:145-218 | with the whole read's checks of document, shape and id: both reads tell the same if and only if the head gave no stamp or the whole file is a transcript |
| FrameSafeCut.FrameSafeKeepFromStart | src/memory/untrusted-framing.ts:158-169 | the scan returns the largest cut up to the clamped one that is inside no frame |
| FrameSafeCut.SafeCutIsLargest | src/memory/untrusted-framing.ts:143-156 | the cut splits no frame, and every larger one up to the asked one does |
| FrameSafeCut.StandsExactly | src/memory/untrusted-framing.ts:143-156 | a marker stands in a text exactly where it was written |
| FrameSafeCut.CutClosesFrames | src/memory/untrusted-framing.ts:143-156 | a frame that opens before a cut outside every frame is closed before it too, by a whole end marker |
| PromptBudget.Trim | src/chat/prompt-budgeter.ts:68-83 | trims or drops the one section of the key |
| PromptBudget.TrimEffect | src/chat/prompt-budgeter.ts:61-83 | the other sections stay whole and in order, and either the excess is gone or the section is |
| PromptBudget.TrimSplitsNoFrame | src/chat/prompt-budgeter.ts:78 | what is left of a section ends inside no untrusted frame |
| PromptBudget.TrimKeepsMost | src/chat/prompt-budgeter.ts:73-82 | what is kept of a section is its longest start that makes up for the excess and splits no frame; it goes altogether only if there is none |
| PromptBudget.TrimsInOrder | src/chat/prompt-budgeter.ts:16-51 | memory is touched only once older context is gone, the transcript only once both are; every other key, and a prompt within its target, stays whole |
| PromptBudget.BudgetPromptSections | src/chat/prompt-budgeter.ts:37-51 | the loop over the trimmable keys computes the specified result |
| PromptBudget.BudgetIsExact | src/chat/prompt-budgeter.ts:37-59 | gives up if and only if the untrimmable sections exceed 60,000 tokens; otherwise at most 56,000, or everything trimmable is gone and it is at most 60,000; every other section is kept verbatim and in order |
| PromptWindow.CanonicalInOrder | src/chat/transcript-order.ts:14-23 | the canonical transcript is in ask order: turns ascend, and within a turn the operator comes before every reply |
| PromptWindow.CanonicalIsStable | src/chat/transcript-order.ts:8-9 | messages of one key keep their arrival order |
| PromptWindow.StableSortIsUnique | src/chat/transcript-order.ts:14-18 | order by key with arrival order within a key determines the result |
| PromptWindow.SortsToCanonical | src/chat/transcript-order.ts:14-18 | so any stable sort of the messages is the canonical one |
| PromptWindow.RecentIsLastEight | src/chat/headless-prompt.ts:143-152 | the window is the last eight messages, in ask order, of all but what the operator said this turn |
| PromptWindow.RenderRecentWindow | src/chat/headless-prompt.ts:363-378 | prior messages framed, one boundary statement if any was |
| PromptWindow.RendersExactly | src/chat/headless-prompt.ts:363-378 | each line is its message, framed if and only if it is of an earlier session, with the boundary statement last if any was |
| PromptWindow.FitRecentWindow | src/chat/headless-prompt.ts:386-407 | the drop loop computes the specified window |
| PromptWindow.KeepsLongestTail | src/chat/headless-prompt.ts:395-399 | whole messages go, oldest first, and every longer tail did not fit |
| PromptWindow.FittedWeighs | src/chat/headless-prompt.ts:395-406 | fixed parts and window take exactly what the fit test measured and what the marker adds, whatever was dropped |
| PromptWindow.WindowIsMarkedExactly | src/chat/headless-prompt.ts:395-406 | a window cut short is the tail that fits with the marker in front, one emptied is the marker, one kept whole has none |
| PromptWindow.PromptReads | src/chat/headless-prompt.ts:127-171 | the prompt is setup, window, briefing and request in that order, a redirect between the request and all before it |
| PromptWindow.EmptiedWindowAddsThree | src/chat/headless-prompt.ts:403-406 | a window dropped whole adds exactly three characters |
| PromptWindow.PromptFitsExactly | src/chat/headless-prompt.ts:127-171 | without a redirect, the exact length of the prompt, and that it is within 24,000 if and only if the fit test left room for the marker |
| PromptWindow.PromptIsBounded | src/chat/headless-prompt.ts:127-171 | the whole prompt is at most 24,003 characters when its fixed parts fit; with a redirect, that bounds what comes before it |
| PromptWindow.FullPartsGoOver | src/chat/headless-prompt.ts:403-406 | fixed parts of 24,000 characters and any recent message make a prompt of 24,003 |
| PromptWindow.SomePromptIsOver | src/chat/headless-prompt.ts:403-406 | such a transcript: one answer before a long task |
| FailureLog.FailureLog.RotateIfFull | src/chat/memory-failure-log.ts:90-106 | an existing file over the cap is cut behind the first line feed of its last 32 KiB, or torn if the disk refuses the rewrite half way |
| FailureLog.FailureLog.RecordMemoryFailure | src/chat/memory-failure-log.ts:65-83 | rotates, appends as much as the disk takes, and answers true if and only if the whole line is in the file |
| FailureLogRuns.LogIsCappedTail | src/chat/memory-failure-log.ts:85-89 | after every run of writes the file is at most 64 KiB; and if no write was torn, refused ones included, it is the end of all it recorded, cut at a line |
| FailureLogRuns.RotationKeepsMost | src/chat/memory-failure-log.ts:90-106 | of the places in the last 32 KiB where a line starts, a rotation cuts at the first |
| FailureLogRuns.TornRewriteLosesTheNewest | src/chat/memory-failure-log.ts:105 | a rewrite refused half way leaves a proper prefix of the tail it was to keep |
| FailureLogRuns.WriteLandsLast | src/chat/memory-failure-log.ts:77-79 | a recorded line ends the file, and one write brings even an oversized old log under the cap |
| FailureLogRuns.RotationsArePaidFor | src/chat/memory-failure-log.ts:100-105 | rotations times (32,770 less the longest line), plus the file, is at most the bytes written |
| FailureLogRuns.RotationsOfFailureLines | src/chat/memory-failure-log.ts:100-110 | of the program's own lines, torn writes included: a rotation costs at least 31,914 bytes, and below 2,490,145 bytes rotations number at most 1 + bytes / 32 KiB |
| FailureLogRuns.OverrotatingCosts | src/chat/memory-failure-log.ts:100-110 | a family of runs of such lines in which every further rotation costs exactly 31,914 bytes |
| FailureLogRuns.RotatesMoreThanOncePerKeep | src/chat/memory-failure-log.ts:100-110 | such a run of 2,490,145 bytes with 77 rotations, one more than 1 + bytes / 32 KiB |
| TurnText.TurnTextRecorder.Get | src/chat/lane-send-outcome.ts:94 | finds the entry of a generation, or none |
| TurnText.TurnTextRecorder.SetKept | src/chat/lane-send-outcome.ts:97 | an insertion-ordered map: an old key keeps its place, a new one goes last |
| TurnText.TurnTextRecorder.Begin | src/chat/lane-send-outcome.ts:99-106 | opens an empty record and evicts from the front down to eight |
| TurnText.TurnTextRecorder.Sink | src/chat/lane-send-outcome.ts:91-98 | forwards and records if and only if the generation's turn is open |
| TurnText.TurnTextRecorder.End | src/chat/lane-send-outcome.ts:107-109 | forgets the generation's record and no other |
| TurnText.DeliversOwnTurn | src/chat/lane-send-outcome.ts:71-84 | in every interleaving a generation delivered the last 1,000 characters of exactly what its own open turn was sent, unless evicted; at most eight are open |
| TurnText.BeginRecords | src/chat/lane-send-outcome.ts:99-106 | a begun turn is recorded empty, and only with eight others open does one other lose its record |
| TurnText.BeginEvictsExactly | src/chat/lane-send-outcome.ts:31-41 | in every run a begin costs a record if and only if eight others are open, and then the front one's, never its own |
| TurnText.SendingAgainGoesLast | src/chat/lane-send-outcome.ts:87-88 | a generation that ends and begins again goes behind newer ones |
| TranscriptWrites.TranscriptWriteQueues.Join | src/chat/session-store.ts:150-155 | a save joins its path's queue last, or a new queue if the path has none |
| TranscriptWrites.TranscriptWriteQueues.Leave | src/chat/session-store.ts:157-160 | the last save out takes the path's entry with it |
| TranscriptWriteRuns.WritesAreSerialized | src/chat/session-store.ts:141-161 | in every run of overlapping and failing saves, two writes of one path never run at once, even across queues; they start in call order; a queue is its path's entry if and only if saves are in it; the file holds the last called of the saves that landed (`Serialized`) |
| TranscriptWriteRuns.LeavesExactly | src/chat/session-store.ts:157-160 | a save that leaves is counted out, and its path's entry goes if and only if it was the last one in the queue |
| TranscriptWriteRuns.FailuresNeverBlock | src/chat/session-store.ts:153-155 | whatever fails, every waiting save gets its write, in order |

## Left out

- Spawning, ConPTY, the ACP bridge and close ladders' own waiting: a call's result is any of success, failure, late return or death.
- Promise machinery and microtask order: an awaited continuation is a later event, and may come at any time or never.
- SQLite, locking between processes and the retry delays of the commit ladder: a commit goes through whole or is reported busy.
- The binding check of a stored session (working directory, adapter, version) is one boolean of the call.
- Failure-text patterns and routing prefixes: a failure comes classified as exhausted, needs-auth or neither; a message comes with its line.
- Mode and model selection, usage and status readers, events, notices, traces, logging and operator wording.
- When compaction is detected; that it arms the briefing carry is the event `Delivery.Compact`.
- Briefing text and rendered ledger entries: their sizes in bytes, any sizes, stand for them.
- The 8,192-byte prefix read and UTF-8 decoding: the stamp's candidate may lie anywhere, and `decode` is any decoding of JSON string escapes that leaves `updatedAt` as it is. The transcript's schema is any set of documents, `shape`.
- JSON numbers and literals: `words` says which bare words are values, any words.
- Finding the current session log of an agent, pid status files, the readiness wait and dialog dismissal of a pty turn.
- A parsed log record is its line; reply text and completion markers are sets of records.
- `writeFileAtomic` and the evidence row behind it: a save's file was replaced or it was not. The rejection of an empty transcript path.
- PtySession.PtySession.EnsureChild: does not model the wait for the rest of the boot time, which changes no state.
- PtyWatchdog.AwaitCompletion: takes the sequence of polls as a parameter, since a poll's log and status are the outside world; `PtyBindingReader` says what its polls return.
- LaneHold.LaneHold.Close: returns the connections of its ladders; their ends and the report are the events `CloseLadderEnded` and `CloseReturned`.
- AvailabilityRuns.ProbeRateBounded: assumes rounds one after another, uncancelled, and failing, with no vendor window nearer than the cooldown, which is what "stays dead with no applicable window" means.
- Delivery.DeliveredWithinGeneration: assumes every prompt starts at its own generation's position; `SomeRunSkips` is a run that does not.
- FailureLogRuns.LogIsCappedTail: lines longer than 32 KiB, which `failureLine` cannot write, are not bounded; nothing is said of the order of what is left after a torn write.
