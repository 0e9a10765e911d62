# Barry Dylan, modelled and proved

Barry Dylan is a bot that reviews pull requests when GitHub's webhooks ask it to. What is hard about it is
a set of small protocols that have to survive retries, crashes, replays and races: a write to GitHub that
must land once, a review that is stopped and resumed, a durable queue, a replay gate, the registry of
reviews in flight, an experiment on a GPU rack, the script that the rack runs, and a few scanners and
budgets with an exact meaning. This project models those protocols and proves what they are for.

Each module is one component. What the code cannot decide, that is the network, GitHub, the rack, the
clock, the random source and the moment a future is dropped, is an `Env` (or a list of rounds, commands or
steps): a value of total functions indexed by the number of the call or await. A statement about every
`Env` is a statement about every run. Where the source updates an object or loops, so does the model; each
such method is proved against a functional or relational specification, and the lemmas are about that.

| module | component |
|---|---|
| `WriteRetry` | the retried write: backoff, Retry-After, deadline, cancellation, lookups before a resend |
| `TieBreak` | the tie-break's deadlines and the time kept back to post it in |
| `ReviewResume` | the multi-identity review as a job stopped at any await and resumed from its record |
| `JobQueue`, `QueueRuns`, `Worker` | the job table, all runs of its commands, and the worker's loop |
| `ReplayGate` | the webhook's gates, the claim on a body's hash, and its pruning |
| `CancelRegistry`, `Dispatch`, `HeadWatcher` | the reviews in flight, what their outcomes write, and the watch on the head |
| `RackReview`, `Payload` | an experiment's life, and the script it runs |
| `LocateJson`, `PatchPosition`, `RelayFrames`, `PersonaGate` | scanners and budgets |

Main results, and what is exact about them:

- At most one copy of a write is on GitHub if a failed attempt's copy is shown within a settle time, a tick, and
  a second settle time or half the shortest backoff, whichever is longer; with any longer lag, if the deadline
  leaves room for a resend, there is a run that leaves two.
- A review job posts each identity at most once, and once more only for a run that left a post off its record or
  could not read the record it was left. However its runs are stopped, if their posts are confirmed and their
  saves land, a run that nothing stops finishes with each identity its verdict calls for posted exactly once.
- A body is queued at most once if it is at most a day, less the claim's lag, ahead of the clock that accepts
  it; any body further ahead can be queued twice.
- No queued event is lost if workers ack and nack only rows they hold; of the commands of a worker that does
  not, exactly an ack, or a nack at the limit, of the event's row loses it.
- A closed pull request keeps no row but those leased at the close, and none pending, until an event of it is
  queued or a leased row of it is handed back.
- An experiment runs on unnamed by its job row in exactly four ways: its id was never learned; its id was not
  written; a poll failed while barry was shutting down; or a poll failed or a deadline passed, and the rack did
  not stop it when asked. In the last two the row is cleared all the same. While the calls of a job meet none of
  these, the row names what runs.
- A push is looked up within a lookup and an interval, and again an interval after that, so that a move which
  GitHub shows up to an interval late still ends the review of the old head.
- The object after some prose is found if and only if the prose leaves the scan outside every string and
  object. After stray closing braces what is found is the first object nested as deep as there are of them.
- The position found for a line of the new file is its own if and only if no "no newline" marker is above it in
  its hunk, where the hunks do not overlap when markers are counted as lines: in every patch that has markers
  in its last hunk only.
- A message reads back from its frame as its lines joined if and only if no line begins with whitespace and the
  first is not empty before others.
- Persona requests fit the context together if the largest fits alone; if it does not, they run one at a time
  unless its estimate wraps around 32 bits.

## Model

| member | source | states |
|---|---|---|
| `WriteRetry.Jittered` | src/github/client.rs:518-528 | a wait without Retry-After lies between half the backoff and all of it |
| `WriteRetry.JitterReachesAll` | src/github/client.rs:518-528 | and every length of that range is drawn for some random word |
| `WriteRetry.AfterRetryAfter` | src/github/client.rs:533-538 | a wait GitHub asked for is never shorter than asked, and at most a quarter longer |
| `WriteRetry.RetryAfterReachesAll` | src/github/client.rs:533-538 | and draws every length between an eighth and a quarter past it |
| `WriteRetry.BackoffDoublesUpToTheCap` | src/github/client.rs:271-366 | the capped doubling is the base times a power of two, capped once; never over `max_delay` after the first wait, and never under the base and the cap both |
| `WriteRetry.ByDefault` | src/github/client.rs:62-71 | with the production settings the slack is twenty seconds and a tick, and the backoff starts at a second and comes to a minute |
| `WriteRetry.ClockBound` | src/github/client.rs:271-366 | every wait of every run ends by the deadline, a lookup within one call of it and an attempt within two |
| `WriteRetry.CallBound` | src/github/client.rs:271-366 | a run makes boundedly many calls and waits: the loop ends |
| `WriteRetry.LookupsSettle` | src/github/client.rs:283-366 | each lookup follows a wait of at least `lookup_settle` that fits the deadline |
| `WriteRetry.WaitLengths` | src/github/client.rs:325-366 | each wait is in the range its cause allows, lengthened to the settle time exactly where a lookup follows |
| `WriteRetry.CancelStopsResending` | src/github/client.rs:283-366 | after the token fires a resend begins at most one lookup later, and not out of a wait |
| `WriteRetry.CleanBeforeResend` | src/github/client.rs:283-366 | while lookups are owed the clock is that many settle times past the attempt, so that when none is owed GitHub holds no copy |
| `WriteRetry.AtMostOneCopy` | src/github/client.rs:283-366 | GitHub never holds two copies of a write that can be looked up, in any run, if only a lost reply, a server error or a success can have been recorded |
| `WriteRetry.SuccessIsTheOneCopy` | src/github/client.rs:283-366 | a run that ends well leaves exactly one copy and returns its id |
| `WriteRetry.LateCopyIsDuplicated` | src/github/client.rs:530-532 | the slack is exact for every setting: with any longer lag, if the deadline leaves room for a resend, some run leaves two copies |
| `WriteRetry.OneOutcome` | src/github/client.rs:271-366 | a run ends in one way at one time, so that a success is never reported as a failure |
| `WriteRetry.RepliesAreRead` | src/github/client.rs:182-260 | told by the reply alone: which replies settle a write, which say that it may have landed and so owe lookups, what wait each asks for, and its error |
| `WriteRetry.FailsOnlyFor` | src/github/client.rs:271-366 | a write fails only for a reply that is final, by its token, or because the longest wait that may come next does not fit the deadline |
| `WriteRetry.OneEnd` | src/github/client.rs:283-366 | a run that goes on has the error of a failed attempt to return |
| `WriteRetry.PlanWait` | src/github/client.rs:325-366 | a wait's length and the next backoff, from what the last call was answered |
| `WriteRetry.LookUp` | src/github/client.rs:283-310 | a lookup that fails pays nothing off, and one that sees a copy ends the run with its id |
| `WriteRetry.WriteAttempt` | src/github/client.rs:182-260 | an attempt is recorded or not, and its answer, read as `RepliesAreRead` says, decides whether it is retried, and whether lookups are owed first |
| `WriteRetry.Sleep` | src/github/client.rs:325-366 | the run ends where the next wait does not fit, or at the firing of the token, with the last error |
| `WriteRetry.Write` | src/github/client.rs:271-366 | the loop carries out a legal run to an end the protocol allows, within the deadline and two calls |
| `TieBreak.ReviewWindow` | src/checker/multi_review/mod.rs:98-134 | the review deadline is in the checker's window, kept back by the reserve or a tenth, and is its start exactly when the reserve does not fit; a timeout the clock cannot hold is thirty years |
| `TieBreak.DoneInTimeCanPost` | src/checker/multi_review/mod.rs:247-331 | a tie-break reviewed by its deadline always passes `time_to_post` |
| `TieBreak.BreakTie` | src/checker/multi_review/mod.rs:232-331 | exactly when it times out, stands, fails or decides, the last by how a legal run of the write ended; and that a post begun in time ends by the checker's deadline with at most one copy |
| `TieBreak.RunTieBreak` | src/checker/multi_review/mod.rs:78-134 | with the production reserve of 510 seconds, the write's deadline and seven requests, for every checker timeout and start |
| `ReviewResume.ReviewJob.SaveProgress` | src/checker/multi_review/mod.rs:390-403 | the row is as far as the run if the save takes effect; a failed save lets the run go on |
| `ReviewResume.ReviewJob.Send` | src/checker/multi_review/mod.rs:405-433 | a review that lands is one post more, and the run marks it only if told |
| `ReviewResume.ReviewJob.PostOnce` | src/checker/multi_review/mod.rs:405-433 | a review on record is not posted, one that is not is posted once, in order, and put on record |
| `ReviewResume.ReviewJob.Begin` | src/checker/multi_review/mod.rs:497-522 | a run resumes exactly the record of its own head, if it can read it, and reviews afresh past a record of another head |
| `ReviewResume.ReviewJob.PostReviews` | src/checker/multi_review/mod.rs:524-566 | Barry first, Other Barry only for a disagreement, and the downgrade when he is gone |
| `ReviewResume.ReviewJob.BreakTie` | src/checker/multi_review/mod.rs:232-331 | the tie-break is recorded exactly when it was reviewed and its post was confirmed, and the run stops exactly where it is dropped |
| `ReviewResume.ReviewJob.Settle` | src/checker/multi_review/mod.rs:566-660 | the check shows the tie-break's outcome if there is one, is neutral for a disagreement without one, and shows Barry's else; the head's record names who posted |
| `ReviewResume.ReviewJob.Run` | src/checker/multi_review/mod.rs:469-660 | one run: nobody posted twice, nothing on record posted again, a confirmed post on record after any later save, what a finished run has posted and shows, the tie-break of this run or an earlier one deciding, and that it finishes if nothing stops it |
| `ReviewResume.ReviewJob.Life` | src/checker/multi_review/mod.rs:368-660 | over any runs, each with the record it found and left: an identity posts once, and once more for each run that left a post of it off the record or could not read the record |
| `ReviewResume.CleanLife` | src/checker/multi_review/mod.rs:368-660 | a new job whose posts are confirmed, saves land and records are read posts each identity at most once, wherever its runs stop, inside a save that lands too |
| `ReviewResume.ExactlyOnce` | src/checker/multi_review/mod.rs:368-660 | and one more such run that nothing stops finishes, with each identity its verdict calls for posted exactly once and no other, showing the outcome that decides |
| `JobQueue.BackoffNeverShrinks` | src/storage/actor.rs:385-386 | retries wait no less each time, every configured delay is used, and the last once attempts run past them |
| `JobQueue.PickExists` | src/storage/actor.rs:277-319 | if a row is due one is picked, due longest and then oldest |
| `JobQueue.PickIsUnique` | src/storage/actor.rs:277-319 | the pick is the only one |
| `JobQueue.JobStore.LeaseNext` | src/storage/actor.rs:277-319 | leases until its time the row due longest, the oldest of these, no live lease on it, or finds none; nothing else changes |
| `JobQueue.JobStore.Ack` | src/storage/actor.rs:320-332 | deletes the row it names, whoever holds it |
| `JobQueue.JobStore.RescheduleAt` | src/storage/actor.rs:333-359 | hands a row back, or fails and leaves it leased when a pending row of its key exists |
| `JobQueue.JobStore.Nack` | src/storage/actor.rs:360-407 | counts the failure and waits the delay of the failures before, deletes at the limit, and fails like a hand-back when blocked |
| `JobQueue.JobStore.Enqueue` | src/storage/actor.rs:408-467 | merges into the key's pending row or inserts; the insert never breaks the pending-only index |
| `JobQueue.CoalescedRows` | src/storage/actor.rs:419-432 | row by row: a merge takes the event's delivery and actor, clears the progress, never brings the row forward, and touches no leased row or other key |
| `JobQueue.JobStore.CancelPrJobs` | src/storage/actor.rs:942-969 | row by row: the pull request's pending rows are gone, and every other row, its leased ones too, is as it was |
| `JobQueue.JobStore.SetRackExperiment` | src/storage/actor.rs:468-488 | changes one field of one row |
| `JobQueue.JobStore.SetReviewProgress` | src/storage/actor.rs:502-522 | changes one field of one row |
| `QueueRuns.AlwaysTidy` | src/storage/schema.sql:31-34 | in every run at most one row of a key is pending, and the rows leased are exactly those held, each under its own lease |
| `QueueRuns.Execute` | src/storage/actor.rs:277-522 | the store carries out each command of a run as its step does |
| `QueueRuns.EnqueuedRow` | src/storage/actor.rs:408-467 | a queued event is in a pending row of its key with its delivery, no sooner than asked, its review started over |
| `QueueRuns.StepCarriesOn` | src/storage/actor.rs:277-467 | every command keeps the event's row or disposes of it |
| `QueueRuns.NoEventIsLost` | src/storage/actor.rs:277-467 | an event stays in its row until a worker that leased the row after it acks or nacks it out, or a close deletes it while pending |
| `QueueRuns.StaleCommandLoses` | src/storage/actor.rs:320-407 | of the commands of a worker that no longer holds its row, exactly an ack and a last nack of the event's row lose the event |
| `QueueRuns.StaleAckLosesAnEvent` | src/dispatcher/worker.rs:48-75 | a worker outlives its lease, another leases the row and hands it back, an event is merged, and the first acks: the event is lost |
| `QueueRuns.ClosedStaysClosed` | src/storage/actor.rs:942-969 | once a pull request is closed it has no row but those leased at the close, and none pending, until an event of it is queued or a leased row handed back |
| `QueueRuns.StepKeepsLease` | src/storage/actor.rs:277-319 | a lease stands through every command but its worker's own and a lease after its time |
| `QueueRuns.LeaseStands` | src/storage/actor.rs:277-319 | the same over a run |
| `QueueRuns.InTimeIsLegit` | src/dispatcher/worker.rs:7-66 | a worker that has not given its row up still holds it, if no lease came after its time |
| `QueueRuns.OneUnexpiredLease` | src/storage/actor.rs:277-319 | two leases of a row do not overlap unless the first was given up, which a blocked hand-back is not |
| `QueueRuns.StepShortensQueue` | src/storage/actor.rs:277-319 | past a row's time nothing is let in ahead of it, and each lease takes one out |
| `QueueRuns.NoStarvation` | src/storage/actor.rs:277-319 | a due row waits for at most as many leases as rows were ahead of it |
| `Worker.Arrive` | src/storage/actor.rs:408-467 | no event or close touches the row of a job that runs; only its own notes do |
| `Worker.Settle` | src/dispatcher/worker.rs:48-120 | success deletes the row, a rate limit and a shutdown hand it back without counting, a failure counts unless the hand-back is blocked; a failed job waits one minute, then five, and the third delay configured is never reached |
| `Worker.Turn` | src/dispatcher/worker.rs:7-120 | one round: the row due longest is run, and what becomes of it, kept leased exactly if another row of its key is waiting |
| `Worker.RunWorker` | src/dispatcher/worker.rs:7-120 | on any store, with events and closes at any time: the rounds made, and no job counted failed more than three times, earlier failures included |
| `ReplayGate.DeliveryStore.ClaimDelivery` | src/storage/actor.rs:970-1003 | a body is claimed unless remembered from the week before; what is older is pruned and nothing else changes |
| `ReplayGate.ReleaseUndoesClaim` | src/storage/actor.rs:970-1019 | releasing a body undoes its fresh claim, and its next claim is fresh whenever it comes |
| `ReplayGate.Execute` | src/storage/actor.rs:970-1019 | the store carries out each command of a run as its step does, and grants what it says |
| `ReplayGate.ClaimAndEnqueue` | src/webhook/server.rs:316-535 | a body is claimed, queued and released, or left as it was, by which of the store calls fail |
| `ReplayGate.Webhook` | src/webhook/server.rs:182-535 | which gate refuses, told by the event itself; that refusal touches nothing; that what passes, at most six days old, is queued exactly when not remembered; and the job that is queued |
| `ReplayGate.HandleAll` | src/webhook/server.rs:301-336 | over any deliveries handled one after another, a body is accepted once, unless its event was more than a day ahead of the clock that accepted it |
| `ReplayGate.NoSecondGrant` | src/webhook/server.rs:301-336 | while a claim stands no other of its body is granted, because a copy is remembered or stale |
| `ReplayGate.StepKeepsOwned` | src/webhook/server.rs:301-336 | each command keeps a claim that will be acted on guarded and the only one of its body |
| `ReplayGate.AlwaysOwned` | src/webhook/server.rs:301-336 | in every run a body has one claim that stands |
| `ReplayGate.QueuedAtMostOnce` | src/storage/deliveries.rs:9-17 | a body is queued at most once if the claims of it that queue, or are let go after their time, are not of a body too far ahead |
| `ReplayGate.FurtherAheadIsQueuedTwice` | src/storage/deliveries.rs:9-17 | the bound is exact: any body further ahead is queued twice by some run |
| `CancelRegistry.ApplyKeepsConsistent` | src/dispatcher/cancel.rs:88-162 | every operation keeps a live registration the entry of its key, and every entry held |
| `CancelRegistry.AlwaysConsistent` | src/dispatcher/cancel.rs:88-162 | the same over every sequence of operations |
| `CancelRegistry.OneLiveReview` | src/dispatcher/cancel.rs:88-125 | a pull request has at most one live review, and it is its entry |
| `CancelRegistry.RefusedOnlyIfCovered` | src/dispatcher/cancel.rs:88-125 | registration is refused exactly when a live review of that head is in flight, and else stops every other |
| `CancelRegistry.LiveUntil` | src/dispatcher/cancel.rs:42-53 | what ends a live review: a newer head, a close, its token or its own drop, and nothing else |
| `CancelRegistry.Registry.Register` | src/dispatcher/cancel.rs:88-125 | carries out the registration |
| `CancelRegistry.Registry.Cancel` | src/dispatcher/cancel.rs:127-135 | removes the entry and fires its token |
| `CancelRegistry.Registry.PushArrived` | src/dispatcher/cancel.rs:140-154 | a review is asked exactly if the registration current for the pull request is of another head |
| `CancelRegistry.Registry.FireToken` | src/dispatcher/run.rs:579-590 | a registration whose own watcher cancels it is fired and stays the entry until it is dropped |
| `CancelRegistry.Registry.Drop` | src/dispatcher/cancel.rs:42-53 | removes the entry only if it is still this registration's |
| `Dispatch.HeldThrough` | src/dispatcher/cancel.rs:42-53 | what others do leaves a held registration held |
| `Dispatch.SilentIsTheEntry` | src/dispatcher/run.rs:634-794 | while its token is silent a review is its pull request's entry, at every await |
| `Dispatch.FiredForGood` | src/dispatcher/run.rs:678-794 | a token that has fired stays fired |
| `Dispatch.PostOutcome` | src/dispatcher/run.rs:678-794 | the calls made are a prefix of check run, labels, review, comment, none begun after the token fires, none exactly if the pull request is seen to be closed or of another head, and all of them otherwise |
| `Dispatch.BegunWhileRegistered` | src/dispatcher/run.rs:678-794 | each call is begun while its review is the registered one, for the head it reviewed |
| `Dispatch.RunChecker` | src/dispatcher/run.rs:237-303 | a run that fails or times out posts a neutral check only, and one cancelled posts nothing; every other ends for one of the four reasons a posting has |
| `HeadWatcher.Arrived` | src/dispatcher/cancel.rs:140-154 | how many pushes have come: exactly those not after now |
| `HeadWatcher.AwaitPush` | src/dispatcher/run.rs:556-563 | the wait ends at the first push not yet answered, one permit standing for all that have come, or with the watcher's end |
| `HeadWatcher.LookupServes` | src/dispatcher/run.rs:529-544 | a lookup made as soon as it may be answers every push since the last |
| `HeadWatcher.LookupKeepsWatch` | src/dispatcher/run.rs:555-606 | each lookup keeps the spacing and answers the pushes whose permit was taken |
| `HeadWatcher.LookupRechecks` | src/dispatcher/run.rs:555-606 | a push whose first lookup is a repeat has left its permit, so that its second comes at once |
| `HeadWatcher.LookAndSleep` | src/dispatcher/run.rs:563-606 | a lookup that shows another head cancels at once, and nothing else does |
| `HeadWatcher.WatchHead` | src/dispatcher/run.rs:545-607 | lookups an interval apart, two a wake with the second an interval after the first, each push answered within a lookup and an interval and again an interval later, or the watcher is done by then, cancelling exactly when a lookup shows a moved head; none begun once the token has fired or the review is over, and the watcher done then or with the lookup under way |
| `HeadWatcher.LateMoveIsCaught` | src/dispatcher/run.rs:525-527 | a push whose move lookups show only an interval later is caught all the same, within three lookups and two intervals |
| `RackReview.FindArtifact` | src/rack/mod.rs:196-202 | the most recent artifact of the name, or none has it |
| `RackReview.Job.Cancel` | src/rack/mod.rs:106-123 | the experiment is gone exactly if the rack stops it, which the caller does not learn |
| `RackReview.Job.PollOnce` | src/rack/mod.rs:311-350 | one poll: its reply decides whether it is over and how, and disarms the guard exactly then |
| `RackReview.Job.PollUntilOver` | src/rack/mod.rs:287-351 | why polling ends, success exactly if the polls come to it before a deadline, the guard armed exactly while the experiment is neither over nor asked to stop, and by the deadline, a poll and an interval, queued or started |
| `RackReview.Job.ReadReviews` | src/rack/mod.rs:369-388 | every reviewer's review, fetched, from its latest artifact, or the error that stopped it, a failed fetch, a missing or an unreadable review |
| `RackReview.Job.Gather` | src/rack/mod.rs:353-400 | what is read back is complete, fetched, and with the verdict exactly if one was asked for, fetched and readable; an error is a request that failed or a review that is missing or unreadable |
| `RackReview.Job.Collect` | src/rack/mod.rs:279-401 | an outcome if the experiment succeeds and what it leaves is there, and else the reason; and however it ends or is dropped, the experiment is over or stopped, unless the rack does not stop it or barry is shutting down with the guard armed |
| `RackReview.Job.SubmitAndRecord` | src/rack/mod.rs:451-459 | one experiment at most, on the row unless it strays, exactly when it strays, and what the last await met |
| `RackReview.Job.Obtain` | src/rack/mod.rs:437-459 | the remembered experiment, or one made now |
| `RackReview.Job.CollectOrResubmit` | src/rack/mod.rs:461-482 | a second experiment only when a resumed one is over and of no use |
| `RackReview.Job.Conclude` | src/rack/mod.rs:461-490 | the same once the experiment is on the row, to the clearing of the row |
| `RackReview.Job.ReviewForJob` | src/rack/mod.rs:428-490 | the reviews, resumed or not, if nothing goes wrong; at most one submission a call and one running experiment, which the row names if every await is harmless, and exactly unless it strays |
| `RackReview.LostOrUnwrittenIdStrays` | src/rack/mod.rs:451-459 | for a job without an experiment, any call whose id is lost or not written leaves one the row does not name |
| `RackReview.PollFailureStrays` | src/rack/mod.rs:484-490 | a poll that fails while barry shuts down leaves the experiment running and its id cleared |
| `RackReview.UnstoppedStrays` | src/rack/mod.rs:108-123 | whatever the deadlines, a resumed experiment that no poll says is over and that the rack does not stop when asked is left running, its id cleared |
| `RackReview.Calls` | src/rack/mod.rs:417-490 | over every sequence of calls, processes apart: the row names what runs, up to a call with an await that is not harmless, such as a request to stop that is refused |
| `Payload.AppendSection` | src/rack/job.rs:141-254 | the loop's body emits one reviewer's section |
| `Payload.Payload` | src/rack/job.rs:33-257 | the compiler's loop emits the whole script |
| `Payload.PulledUnlessLocal` | src/rack/job.rs:91-112 | a model is pulled into an emptied directory, unless it is a path on the host |
| `Payload.ObtainGetsTheModel` | src/rack/job.rs:96-112 | what is served is this reviewer's own model, also where clearing the directory may fail |
| `Payload.StartServesTheModel` | src/rack/job.rs:91-138 | a server started where there is none is the only one, whichever step fails, and if none does it is healthy, on a free port, and answers |
| `Payload.JudgeLeavesAVerdict` | src/rack/job.rs:212-240 | a judge that fails leaves its error in the verdict's place and the script goes on |
| `Payload.JudgeAloneLeavesAVerdict` | src/rack/job.rs:202-211 | a judge's server that does not come up costs the verdict only |
| `Payload.SectionIsReady` | src/rack/job.rs:141-254 | each section leaves a server up only for a next reviewer that shares it |
| `Payload.JobIsInOrder` | src/rack/job.rs:33-257 | for every list of reviewers and every pattern of failures: never two servers, none at the end, reviews in order by their own models and configurations, success exactly when nothing they need failed, always if nothing fails, the right verdict, every log, and the number of starts |
| `LocateJson.Locate` | src/checker/multi_review/parse_util.rs:2-43 | finds the first object that opens outside everything and closes, and where it does |
| `LocateJson.LocatedOnce` | src/checker/multi_review/parse_util.rs:2-43 | there is only one such slice |
| `LocateJson.JsonPasses` | src/checker/multi_review/parse_util.rs:9-40 | a printed value, whitespace wherever it may stand, leaves the scan as it was and never below its depth |
| `LocateJson.LocatesTheObject` | src/checker/multi_review/review.rs:49-54 | for every object, prose and suffix: exactly the object is found if and only if the prose is clean |
| `LocateJson.BareProseIsClean` | src/checker/multi_review/review.rs:49-54 | prose without quotes and braces is clean |
| `LocateJson.StrayBracesFindTheNested` | src/checker/multi_review/parse_util.rs:24-36 | after `k` stray closing braces exactly the first object nested in `k` others is found |
| `LocateJson.StrayBracesFindNothing` | src/checker/multi_review/parse_util.rs:24-36 | and nothing if nothing that follows is nested so deep |
| `LocateJson.NestedObjectIsReturned` | src/checker/multi_review/parse_util.rs:24-36 | a stray brace before an object in an object: the inner one is returned |
| `LocateJson.StrayQuoteHidesTheObject` | src/checker/multi_review/parse_util.rs:9-24 | prose that ends inside a string hides the object after it |
| `PatchPosition.PatchPositionForNewLine` | src/checker/multi_review/posting.rs:105-128 | the first line that the scan takes for the target, over any lines |
| `PatchPosition.KindsByPrefix` | src/checker/multi_review/posting.rs:109-120 | a line is a header by its first two characters and of the old side by its first |
| `PatchPosition.HeaderHasItsStart` | src/checker/multi_review/posting.rs:109-117 | a rendered header reads back as its new side's start, whatever its section says, unless that does not fit 32 bits |
| `PatchPosition.PatchReadsBack` | src/checker/multi_review/posting.rs:105-128 | every rendered line reads back as its kind |
| `PatchPosition.PatchIsCounted` | src/checker/multi_review/posting.rs:105-128 | each line is counted as its number plus the markers above it in its hunk |
| `PatchPosition.RightIffNoMarkerAbove` | src/checker/multi_review/posting.rs:105-128 | the scan counts a line as its own number if and only if no marker is above it in its hunk |
| `PatchPosition.FindsWhatIsSeen` | src/checker/multi_review/posting.rs:105-128 | for every patch at all, what is found is the first place that holds the line when markers are counted as lines |
| `PatchPosition.FoundIffNoMarkerAbove` | src/checker/multi_review/posting.rs:105-128 | where the new sides do not overlap, markers counted, the position found for a line is its own if and only if no marker is above it in its hunk |
| `PatchPosition.FoundIffNoMarkerAboveAtTheEnd` | src/checker/multi_review/posting.rs:105-128 | and so for every patch with markers only in its last hunk |
| `PatchPosition.MarkerInAnEarlierHunk` | src/checker/multi_review/posting.rs:118-125 | with a marker in an earlier hunk a line with none above it in its own can be missed |
| `PatchPosition.FindsTheOnePlace` | src/checker/multi_review/posting.rs:82-128 | without markers a position is found exactly for the lines on the new side, and it is the one place that holds the line |
| `PatchPosition.MarkerIsTakenForTheLine` | src/checker/multi_review/posting.rs:118-125 | a marker is taken for the line after it |
| `RelayFrames.ParseFrame` | src/relay.rs:119-142 | the data of a frame that is a message with a delivery in it |
| `RelayFrames.EndingIsDropped` | src/relay.rs:122 | a line is read without its newline and a carriage return before it |
| `RelayFrames.OnlyMessagesAreDelivered` | src/relay.rs:119-137 | a frame whose last event line names anything but a message is not delivered; one that names none, or a message, is by its data |
| `RelayFrames.FramesAppend` | src/relay.rs:273-286 | the frames of what was held over with a chunk are those of the whole |
| `RelayFrames.Drain` | src/relay.rs:277-286 | takes out every frame and delivers each delivery, in order |
| `RelayFrames.Stream` | src/relay.rs:263-287 | frames, deliveries and leftover are the same for every cut into chunks |
| `RelayFrames.FrameReadsBack` | src/relay.rs:119-142 | a message written line by line reads back as its lines joined if and only if no line begins with whitespace and the first is not empty before others |
| `RelayFrames.WrittenIsDelivered` | src/relay.rs:242-288 | messages written one after another are its frames, and of those that read back every delivery is delivered once, in order |
| `RelayFrames.EmptyOrIndentedLineIsLost` | src/relay.rs:125-131 | an empty first line loses its newline and an indented line its indent, where the standard keeps them |
| `PersonaGate.PersonaConcurrency` | src/checker/multi_review/orchestrator.rs:68-80 | at least one, and at most all |
| `PersonaGate.AsManyAsFit` | src/checker/multi_review/orchestrator.rs:68-80 | all of them where no context is shared, and else as many as fit it by the estimate, no fewer |
| `PersonaGate.PermitsAreKept` | src/checker/multi_review/orchestrator.rs:108-116 | in every run the permits out and in are those the gate began with, and steps run out |
| `PersonaGate.NeverStuck` | src/checker/multi_review/orchestrator.rs:108-116 | while a persona is not done some step can be taken |
| `PersonaGate.InFlightFits` | src/checker/multi_review/orchestrator.rs:54-80 | in every state of every run the requests in flight fit the context, if the largest fits alone |
| `PersonaGate.OneInFlight` | src/checker/multi_review/orchestrator.rs:65-116 | in every state of every run at most one request is in flight, if the largest does not fit and its estimate does not wrap |
| `PersonaGate.OneAtATime` | src/checker/multi_review/orchestrator.rs:65-80 | if the largest does not fit they run one at a time, exactly unless its estimate wraps around |
| `PersonaGate.WrappedEstimateLetsTwoIn` | src/checker/multi_review/orchestrator.rs:50-52 | a prompt whose estimate wraps lets two in |
| `PersonaGate.RunPersonasGated` | src/checker/multi_review/orchestrator.rs:86-117 | every persona runs once, and results come in the order of the personas |

## Left out

- WriteRetry.Write: time spent outside calls and waits is zero, a wait does not overshoot, and a `Duration` that overflows (which panics) is not modelled; a lookup is one call with one time budget, though the client tries its reads up to three times.
- WriteRetry.SuccessIsTheOneCopy: a write answered with success whose body cannot be read is an error to the caller with one copy on GitHub; the reply is taken as read here.
- WriteRetry.CancelStopsResending: a write may still be sent after the token fires, at most one lookup later, because no token is looked at between a lookup and the attempt after it.
- TieBreak.RunTieBreak: the store is given no time of its own in the post reserve, as in the source, so none passes here.
- ReviewResume.ReviewJob.Run: the review itself, its rack and its judge are one await with an arbitrary verdict.
- ReviewResume.ReviewJob.Life: all runs are on one head and no event is merged into the job meanwhile; a merge clears the record, and the next run reviews afresh.
- QueueRuns.NoEventIsLost: a busy or failing database is not modelled; a command that fails changes nothing and is not sent.
- Worker.RunWorker: one worker, whose lease does not run out while it runs a job; any number of workers, and leases that do, are in QueueRuns.
- ReplayGate.Webhook: parsing, the signature and the hash are given; the registry's part in a close and a push is in CancelRegistry.
- HeadWatcher.WatchHead: when a wake and the token's firing come at the same instant the token is taken first, where the source picks either.
- CancelRegistry.Registry.Register: a token is its generation, and is fired when the generation is in `fired`; the notification a push leaves is HeadWatcher's.
- RackReview.Job.Cancel: a request that is refused, fails or is never sent is one case, an experiment that is not stopped; the reply changes nothing but the log.
- RackReview.Job.Collect: that a resumed experiment is of the current head is not claimed, because the source does not check it.
- Payload.Payload: the script is a list of commands and not its text; configuration lines, artifact uploads and the job around the payload carry no control flow and are single steps or absent.
- Payload.JobIsInOrder: a server that is killed is gone, and a step fails or succeeds as a whole; a server already on the port answers in place of the job's own if the check does not stop the script.
- LocateJson.Locate: the depth is unbounded, where the source's is 32 bits wide.
- PatchPosition.PatchPositionForNewLine: the patch is given by its lines, the line counter is unbounded where the source's is 32 bits wide, and whitespace is ASCII.
- RelayFrames.Stream: chunks are decoded one by one in the source, so that a character cut in two is lost; chunks are characters here, and whitespace is ASCII.
- PersonaGate.RunPersonasGated: a persona's request is one outcome, and the semaphore's queue has no order.
- HTTP, GraphQL, SQL, bash and systemslab as such: results, table states and steps stand for them.
- Prompts, drafts, synthesis and judging by language models: arbitrary values.
- Configuration, filters, hygiene checkers, commands, confer and trust decisions, telemetry, caches and migrations: decisions of one branch, with no state and no protocol.
