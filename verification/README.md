# nitroso-tin, modelled and verified

nitroso-tin buys scarce train tickets with real money, and recovers by itself when a purchase goes
wrong half-way. This project models the parts where a wrong step costs money or a seat, and proves
what they promise over every input, every reply of the outside world and every interleaving.

| module | what it models | form |
|---|---|---|
| `TicketScan` | the search for a passenger's ticket on the account's paged list | loops proved against the real list |
| `Recovery` | buyers, recoverer, zinc and KTMB as one interleaved protocol | state machine |
| `RecoverySafety`, `RecoveryVerdicts`, `RecoveryRaces` | what all its runs keep, what stands behind a refund, and where safety ends | invariants and histories over all runs |
| `RecoveryOutcomes` | how an item, a purchase and a cycle end, and what leaving a stage means in any company | lemmas over call sequences |
| `RecoverDrain` | one drain of the recover queue under concurrent pushes, and its repetition | class, and lemmas over cycles |
| `Buyer` | buying a ticket for a reserved seat and settling every ending | methods with a journal of effects |
| `Session`, `SessionOutcomes` | the shared KTMB session: login lock, invalidation, dead-session recovery; what each of these calls achieves | state machine for any number of clients |
| `Prober` | one prober job: polling, holds, compensation, the durable release list | class, ledger of every hold |
| `Reserver` | the replicas that stop one another through a buffered channel | state machine |
| `Differ` | seat differences and their re-arming when demand rises | class with a ghost ledger |
| `Fleet`, `PollerTiers` | which slots are watched, by which jobs, under which names | loops over maps and lists |
| `Refund`, `RefundPolicy` | attributing a refund to one ticket | recursion over JSON, loops over policies |
| `Text`, `Demand`, `Sorting`, `Sharding`, `Wrappers` | what several of these share | |

Calls to Redis, zinc, KTMB and Kubernetes are single steps whose outcome is arbitrary: a parameter of
the method, or a choice of the state machine. A call that fails has no effect. Go maps have no order:
where the program ranges over one, the model takes the keys in an arbitrary order.

## What came out

- **Absence is absence.** The ticket scan answers "not there" only when no row of the real list departs
  at that time with that passport, in either direction, and it never fetches more than
  log2(pages) + the pages holding that time + 4 pages.
- **Two buyers are one too many.** With at most one buyer the recoverer never works on a booking being
  bought. With two it can: buyer 0 pushes its record, the recoverer drains it and recycles the booking,
  buyer 1 buys it again, and only then does buyer 0's late transition to Recovering land on the purchase
  in flight, whose ticket can then be refunded. Any number of buyers is safe in runs where nobody re-buys
  a booking still being parked; that the sweep skips what was drained in its cycle holds in all runs. The
  charts deploy one buyer (`infra/root_chart/values.yaml:532`), but the deployment sets no rollout
  strategy (`infra/consumer_chart/templates/deployment.yaml`), so an old and a new one can overlap
  during a rollout.
- **A departure can fall between the look at it and the scan.** The list shows upcoming tickets only, so
  the recoverer looks at the departure before it scans. If the train departs between the two, a ticket we
  paid for is gone from the list and the booking can be refunded, with one buyer already. Without that, and
  with at most one buyer, no booking is refunded for which a ticket was ever bought and not recorded.
- **A hold without bookingData is nowhere.** When KTMB accepts a reservation without sending bookingData the
  slot stops, and that hold is neither delivered, nor cancelled, nor listed, nor counted as a hold. At most
  one per slot and run, always the last reply; all other accepted holds are in exactly one place.
- **The tick inspected is the newest finished one, by probing time only.** The epoch whose tallies are
  read is exactly the newest in which every job has used up its probing time. A job may go on for 125
  seconds after that, so with epochs shorter than four minutes (the shipped setting is one) a job
  reported missing may still be running.
- **A repeated ticket number misreports a refund.** The terminator refunds the first ticket of that
  number and reports the amount of the last; they agree exactly when the two state the same amount.
- **A demand time without seconds re-arms one slot more.** The differ forgets a slot exactly when its
  demand rose, provided all demand times end in ":00"; the general condition is proved too.

Where documents and code differ, the model follows the code: section 2 of docs/RECOVERY.md says that the
revert of a Buying booking is gone, but lib/buyer/client.go:330-348 calls it, and section 3 says that a booking is
never bought again, but a conclusive absence recycles it to Pending (lib/recoverer/process.go:149-186).

## Model

| member | source | states |
|---|---|---|
| `TicketScan.FindTicketIn` | lib/recoverer/scan.go:53-160 | Over any sorted list, with pages failing or coming back blank: Absent means no row of any page truly departs then with that passport in either direction; Found is a real row under its own numbers whose station names an origin of the queried direction; when nothing goes wrong it finds exactly what a linear scan finds; page fetches are bounded by 1 + (floor(log2 pages) + 1) + pages holding the time + 2. |
| `TicketScan.Bisect` | lib/recoverer/scan.go:70-104 | The bisection finds a page whose ends enclose the time, or proves no page holds it, or something was unreadable; at most floor(log2 pages) + 1 fetches. |
| `TicketScan.ScanLeft` | lib/recoverer/scan.go:107-133 | Stops with a justified answer, or proves no page from its edge up to the hit holds our ticket and the edge page ends the run. |
| `TicketScan.ScanRight` | lib/recoverer/scan.go:135-158 | The same to the right of the hit. |
| `TicketScan.ScanPage` | lib/recoverer/scan.go:108-132 | One page yields a real ticket from an origin of the queried direction, an inconclusive answer with a cause, or the proof that none of its rows is ours and whether it holds the time. |
| `TicketScan.MatchPage` | lib/recoverer/scan.go:217-243 | A definitive match, at that time with that passport from an origin of the queried direction, wins over malformed siblings; no match without error means every row read and none is at that time with that passport. |
| `TicketScan.PageContainsDatetime` | lib/recoverer/scan.go:177-191 | Present, provably not present, or unclear because a row did not parse. |
| `TicketScan.TicketForPassportFinds` | lib/recoverer/scan.go:247-256 | A booking yields a ticket number exactly when one of its tickets bears the passport, ignoring case and blanks, and then it is that ticket's. |
| `TicketScan.DirectionByOrigin` | lib/recoverer/scan.go:273-283 | "WToJ" if and only if the station names Woodlands; "JToW" if and only if it does not and names Sentral or Johor; otherwise no direction. |
| `TicketScan.ClassifiedStartsRight` | lib/recoverer/scan.go:225-236 | A row is confirmed for a direction exactly when its station is an origin of it. |
| `Recovery.Unhandled` | lib/recoverer/client.go:239-244 | The sweep works on exactly the listed bookings that were neither drained this cycle nor are on the queue, each once. |
| `RecoverySafety.OrderlyRunsAreSafe` | lib/recoverer/client.go:126-147 | Any number of buyers, every run in which no purchase starts on a booking still being parked: the recoverer never works on a booking in purchase and the sweep leaves queued bookings alone; and if no departure falls between an item's look at it and its scan, every ticket ever bought for a refunded booking, still on the list or not, is recorded on a Completed one. |
| `RecoverySafety.SweepNeverRevisits` | lib/recoverer/client.go:239-244 | In every run whatsoever, with any number of buyers, the sweep never works on a booking drained in the same cycle. |
| `RecoverySafety.RunKeepsBoth` | lib/recoverer/client.go:165-255 | The invariants behind this: who works on what, and that a ticket paid for and not recorded is on the list until it departs. |
| `RecoverySafety.SingleBuyerIsOrderly` | lib/buyer/client.go:184-282 | A single buyer cannot start on a booking it is still parking. |
| `RecoveryRaces.SafeExactlyWhen` | lib/recoverer/process.go:90-137 | Over all runs: never working on a purchase in flight holds if and only if there is at most one buyer, and so does never sweeping a booking with a live record; never refunding a paid ticket holds if and only if there is no buyer, or one and departures never fall between look and scan. |
| `RecoveryRaces.TwoBuyersCanCollide` | lib/buyer/client.go:387-393 | With two buyers a run exists in which the late transition makes the sweep work on a booking in purchase. |
| `RecoveryRaces.TwoBuyersCanQueueTheSwept` | lib/recoverer/client.go:226-244 | ... one in which a record is queued for the booking the sweep is working on ... |
| `RecoveryRaces.TwoBuyersCanLoseATicket` | lib/recoverer/process.go:170-176 | ... and one in which the ticket that purchase captures is refunded as a duplicate. |
| `RecoveryRaces.LateDepartureCanLoseATicket` | lib/recoverer/process.go:96-101 | With any buyer at all, a departure passing after the look at it and before the scan can have a paid ticket refunded. |
| `RecoveryVerdicts.DuplicatesAreProven` | lib/recoverer/process.go:101-136 | In every run, with any number of buyers, a step of the run made each duplicate one: an item marked it that had itself, since it was taken up, seen the departure ahead and then scanned a list without a ticket for it, or scanned a ticket and then seen it recorded on a Completed booking; or zinc expired it after an item with such a scan had recycled it. |
| `RecoveryOutcomes.ItemIsResolved` | lib/recoverer/process.go:35-186 | Whatever calls an item makes, when none fails and nobody interferes it ends as decided: dropped if gone or resolved; parked if already captured or in no state to recover; Completed under its record's number if it has one; else, by departure and list, parked, recycled, Duplicate with a claimant, or Completed under the ticket's number. |
| `RecoveryOutcomes.ItemCanBeResolved` | lib/recoverer/process.go:35-137 | From every state such a sequence of calls exists. |
| `RecoveryOutcomes.LeavingAStage` | lib/recoverer/process.go:232-257 | In any company: an item that leaves Capture, other than by a failed call or a crash, leaves its number recorded on a Completed booking; leaving Refund means Duplicate, Park means manual, Recycle means Pending, refused or exhausted, Mark means Recovering. |
| `RecoveryOutcomes.FailureGoesBack` | lib/recoverer/client.go:312-349 | A failed item changes nothing and is queued again with its numbers and one more attempt, unless the push is lost or it is parked at the cap. |
| `RecoveryOutcomes.PurchaseEnds` | lib/buyer/client.go:184-282 | A purchase nobody disturbs, by a buyer that does not give up: without a ticket the booking is Pending again or parked; with one it is Completed under its number, or Recovering with a record carrying the number, or without one only where the numbers were incomplete. |
| `RecoveryOutcomes.PurchaseCanComplete` | lib/buyer/client.go:184-282 | A Pending booking KTMB will sell to can be bought and recorded. |
| `RecoveryOutcomes.DrainTakes` | lib/recoverer/client.go:178-206 | Each turn takes exactly the head of the queue as the item at hand and notes its booking, as often as counted at the start. |
| `RecoveryOutcomes.SweepLists` | lib/recoverer/client.go:217-244 | The undisturbed sweep's list is exactly the Recovering bookings neither drained nor queued, each once. |
| `RecoverDrain.Recoverer.TakeOne` | lib/recoverer/client.go:178-206 | One turn: the front entry goes, malformed ones are dropped, a failed item is re-queued. |
| `RecoverDrain.Recoverer.Requeue` | lib/recoverer/client.go:312-349 | The item goes to the end with one more attempt; at the cap it is parked instead if that works; with all pushes failing it is gone. |
| `RecoverDrain.Recoverer.Drain` | lib/recoverer/client.go:165-208 | Whatever is pushed meanwhile, it takes the entries queued at its start, each once and in order, up to where it stops; the queue afterwards is the untaken rest, then arrivals and re-queued items in order; `handled` is the records taken; it succeeds exactly when it gets through. A length that cannot be read changes nothing. |
| `RecoverDrain.StopsWhere` | lib/recoverer/client.go:169-205 | A drain stops before the first failing pop or behind the first broken envelope, and otherwise takes everything. |
| `RecoverDrain.CompleteReaches` | lib/recoverer/client.go:178-206 | A drain that gets through takes the records of every booking. |
| `RecoverDrain.AttemptsStayBelowCap` | lib/recoverer/client.go:312-323 | With parking working no record on the queue ever carries as many failures as the cap. |
| `RecoverDrain.CycleCounts` | lib/recoverer/client.go:312-323 | A cycle never lowers the failures of a booking's records, and raises them by one when its drain takes all of them, wherever it stops after that. |
| `RecoverDrain.LeavesWithinMaxAttempts` | lib/recoverer/client.go:312-323 | With parking working, a booking nobody pushes again is off the queue after as many drains that took its records as the cap leaves it attempts, whatever fails, whatever else is pushed and wherever drains are cut short. |
| `RecoverDrain.FailedItemComesBack` | lib/recoverer/client.go:312-349 | A failed item taken by a drain is queued again with its numbers and one more attempt, if it can be pushed and is not parked at the cap; nothing pushed meanwhile is lost. |
| `RecoverDrain.PushesWhen` | lib/recoverer/client.go:330-349 | It can be pushed exactly when one of three attempts succeeds before the context ends. |
| `Buyer.HandleReservation` | lib/buyer/client.go:184-282 | A captured payment is never followed by a cancellation and ends in zinc, in a queued record, or in a failed park, always with KTMB's booking number and the first ticket of the first trip, the latter empty when there is none; cancellation is requested exactly with no booking, a parked conflict or a successful revert; the record is pushed before the booking moves. |
| `Buyer.Buy` | lib/buyer/buyer.go:39-181 | A captured payment is reported as bought or purchased, never as failed, under KTMB's booking number and the first ticket of the first trip; without one it is purchased with an error and an empty ticket number; conflict, revert and failure are told apart exactly by the stage and messages, all before capture. |
| `Buyer.MatchesConflict` | lib/buyer/errors.go:50-60 | True exactly when a non-empty pattern reads somewhere in a message, ignoring case. |
| `Buyer.Settle` | lib/buyer/client.go:240-281 | What each ending of a purchase does to the outside, in order. |
| `Buyer.Park` | lib/buyer/client.go:355-403 | It fails exactly when the record does not encrypt or every push fails, and then does nothing; otherwise the record, the transition if some attempt at it gets through, and the release if asked. |
| `Buyer.RetryBackoff` | lib/buyer/client.go:47-61 | At least one and at most `retries` attempts, stopping at the first success; failure means all of them failed. |
| `Session.OneLoginAtATime` | lib/session/client.go:43-64 | In every interleaving at most one client is between taking the login lock and storing its token, and the lock is its own. |
| `Session.NobodyElseTakesTheLock` | lib/session/client.go:111-120 | No step of anyone else, a late release included, takes the lock from it. |
| `Session.LoginNeverKillsASession` | lib/session/client.go:66-75 | A KTMB login never happens while a session is cached. |
| `Session.LoginsMatchDeletions` | lib/session/client.go:64-97 | The tokens ever stored are the deleted ones plus the cached one, in order and all different: logins stored never exceed one plus the deletions. |
| `Session.OnlyDeadTokensAreDeleted` | lib/prober/store.go:100-144 | A token is deleted only if its own caller saw it rejected or it was signalled dead. |
| `Session.FreshTokenSurvives` | lib/session/client.go:148-153 | A client reads the cache to drop what it finds, others run on in any way and a token is stored: the client's compare-and-delete, of Invalidate or RecoverSession, then leaves the cache as it is. |
| `Session.CurrentSignalSurvives` | lib/prober/store.go:127-133 | Cleaning up stale signals never drops one for the cached token. |
| `SessionOutcomes.LoginAlone` | lib/session/client.go:35-97 | A login nobody disturbs uses a cached session as it is; otherwise it ends only with the lock free at its start, and then with a fresh token cached and the lock free again. |
| `SessionOutcomes.InvalidateAlone` | lib/session/client.go:125-160 | An invalidation nobody disturbs uncaches the rejected token if it is the cached one, and otherwise changes nothing. |
| `SessionOutcomes.RecoverAlone` | lib/prober/store.go:100-144 | A recovery nobody disturbs uncaches a signalled token and clears the signals; a token not signalled stays. |
| `SessionOutcomes.DropsWhatItSaw` | lib/session/client.go:148-153 | In any company, the compare-and-delete of Invalidate or RecoverSession empties the cache, with one deletion more, if it still holds what the client read, and else leaves it. |
| `SessionOutcomes.ReleaseFrees` | lib/session/client.go:111-120 | In any company, a release frees the lock if it is still the client's own, and else leaves it. |
| `Prober.Runner.ProbeSlot` | lib/prober/runner.go:121-274 | For every script of replies: outcomes counted balance with polls within one, exactly one more for a run ended by data still stale or by a failed hold; each poll is counted for what it was, and holds, stale reads, dead sessions, failed releases and errors stay within their limits; every accepted hold is where its own turn sent it (delivered, cancelled as KTMB confirmed, durably listed, or lost because that failed), in order, and in exactly one place if and only if the last acceptance was not without bookingData; at most one fails; a dry run never enqueues; the run stops at the first turn that ends it, and at no other while holds are needed. |
| `Prober.ClassifyMeans` | lib/prober/runner.go:168-272 | Each reading exactly by what the reply says: dead session before stale data, before rate limit (429 or its patterns), before sold out; unclassified is a refusal none of these fit, or no answer. |
| `Prober.ReadsAreReplies` | lib/prober/runner.go:168-272 | The polls counted under a reading are those whose reply said so. |
| `Prober.Runner.DrainReleases` | lib/prober/runner.go:339-411 | Of the entries seen, newest first and within both budgets, exactly these leave the list: unreadable ones, accepted cancellations, and answers with a terminal message that do not reject the session; a readable entry whose session is rejected stays, even with a terminal message, and ends the drain, which signals that session; it fails exactly when the list cannot be read or a removal fails. |
| `Prober.Judge` | lib/prober/runner.go:358-409 | How a retried release is read: removable and session-lost are exactly those two conditions. |
| `Prober.Runner.AcceptHold` | lib/prober/runner.go:297-310 | Delivered exactly when the run is live and the hold encrypts and enqueues, otherwise released; a run continues only after a live delivery or a dry-run release. |
| `Prober.Runner.CompensateHold` | lib/prober/runner.go:315-337 | Cancelled exactly when KTMB confirms it; else durably listed exactly when it encrypts and is stored; else lost; failure is reported unless confirmed. |
| `Prober.BudgetInClosedForm` | lib/prober/runner.go:205-234 | The error budget is holds * (limit - 1) + limit. |
| `Prober.SumTallies` | lib/prober/model.go:96-110 | A job's total is the sum of its slots, field by field. |
| `Prober.TotalsAdd` | lib/prober/model.go:96-110 | Each of the nine counts of a total is the sum of that count over the slots. |
| `Prober.TotalsBalance` | lib/prober/model.go:96-110 | Balanced slots give a total whose outcomes lie between polls and polls plus slots, with at most one failed release and one dead session each. |
| `Reserver.TokensAreSuccesses` | lib/reserver/reserver.go:198-228 | In every reachable state, tokens buffered, relayed and not yet sent are as many as the successes, at most one per replica. |
| `Reserver.SendersNeverBlock` | lib/reserver/reserver.go:210-223 | A replica about to send finds room in the channel. |
| `Reserver.NoReplicaIsStuck` | lib/reserver/reserver.go:199-227 | Every unfinished replica can take a step. |
| `Reserver.RunsEnd` | lib/reserver/reserver.go:208-226 | No run is longer than replicas * (2 * attempts + 3) steps. |
| `Reserver.FinalTokensAreSuccesses` | lib/reserver/reserver.go:198-228 | When nothing can move, every replica has finished and one token per success is left. |
| `Reserver.EachReservesAtMostOnce` | lib/reserver/reserver.go:216-224 | In any run each replica reserves successfully at most once. |
| `Reserver.WhyReplicasEnd` | lib/reserver/reserver.go:198-228 | A replica that got through maintenance and ends without sending a token has failed every attempt; a token received or earned is sent once, with no reservation after it. |
| `Reserver.TokenIsTaken` | lib/reserver/reserver.go:208-215 | A replica that finds a token when it looks does not reserve any more. |
| `Differ.Differ.Report` | lib/reserver/differ.go:181-215 | A report replaces what is remembered of its channel by its demanded slots, sends one message for each of those whose count changed and no other, with the right previous count and delta, and keeps every slot's deltas since it was last forgotten summing to what is remembered. |
| `Differ.Differ.NewCount` | lib/reserver/differ.go:55-65 | A new demand forgets exactly the re-armed slots and keeps the rest and the ledger. |
| `Differ.DemandHasSeconds` | lib/reserver/differ.go:191-196 | A seat slot's demand is the one filed under its time with ":00" appended, none if nothing is. |
| `Differ.Rearm` | lib/reserver/differ.go:79-96 | Deleting key by key, in any order, forgets exactly the slots some risen demand stands for, and lists the risen ones. |
| `Differ.DiffAgainst` | lib/reserver/differ.go:112-137 | The diffs are exactly the changed times, and only that channel's memory changes. |
| `Differ.Filter` | lib/reserver/differ.go:188-196 | Exactly the reported times in demand, with their counts. |
| `Differ.RearmedWhen` | lib/reserver/differ.go:84-90 | A slot is re-armed if and only if its demand rose, or it does not end in ":00" and the demand filed under its very time rose. |
| `Differ.WholeMinutesForgetTheRisen` | lib/reserver/differ.go:69-78 | With demand on whole minutes a remembered slot is forgotten if and only if its demand rose, and is otherwise untouched. |
| `Differ.RisenSlotStartsOver` | lib/reserver/differ.go:69-78 | After a rise, however many reports and demands follow that do not show the slot with seats while in demand, the first that does is sent with previous count 0 and all its seats as the delta. |
| `Fleet.Spawn` | lib/prober/spawner.go:93-144 | With a valid config, demand, session, seeds and the expected list written, every job of the plan is attempted whichever fail, and the list is their names; otherwise none is; errors are reported exactly when something failed; the epoch inspected is the newest surely over. |
| `Fleet.TargetsFromCount` | lib/prober/model.go:42-63 | Exactly the slots with positive demand, strictly ordered by date, direction and time, in whatever order the maps are walked. |
| `Fleet.TargetLessMeans` | lib/prober/model.go:53-61 | The order is by date, then direction, then time. |
| `Fleet.TargetListIsUnique` | lib/prober/model.go:53-61 | There is one such list for a snapshot. |
| `Fleet.ShardTargets` | lib/prober/model.go:65-81 | Consecutive shards that make up the list, all but the last full, none empty. |
| `Fleet.ReplicasAgree` | lib/prober/spawner.go:112-140 | Two replicas with the same snapshot plan the same jobs with the same names and targets. |
| `Fleet.PlanCoversDemand` | lib/prober/spawner.go:134-140 | Every demanded slot is probed by exactly `fanout` jobs and nothing else by any. |
| `Fleet.PlanIsWellFormed` | lib/prober/spawner.go:123-140 | No two jobs share a name, and none has more than slotsPerJob targets or none. |
| `Fleet.JobNameReads` | lib/prober/job.go:39-41 | A name is the prefix and its three numbers in decimal, each reading back. |
| `Fleet.EpochHoldsNow` | lib/prober/spawner.go:94-98 | The current moment lies in the epoch computed for it. |
| `Fleet.JobNamesAreInjective` | lib/prober/job.go:39-41 | A job name determines epoch, shard and fan-out index. |
| `Fleet.ExpectedNames` | lib/prober/spawner.go:124-129 | The expected list is the names of the planned jobs in order. |
| `Fleet.CreateJobs` | lib/prober/spawner.go:133-140 | All planned jobs are attempted in order; success means every creation succeeded. |
| `Fleet.NewestEpochOver` | lib/prober/spawner.go:98-102 | All jobs of an epoch, created at any time within it, have surely used up their time at any moment of the current epoch if and only if it is at least ceil(job/epoch) + 1 back. |
| `Fleet.NewestEpochMayStillFlush` | lib/prober/job.go:85-88 | Against the Kubernetes deadline of 125 more seconds the epoch inspected is surely over if and only if rounding up leaves three minutes, so never with epochs under four minutes. |
| `PollerTiers.SelectTargets` | lib/poller/poller.go:207-232 | The list is sorted in place, stably; full power is the window and then the earliest boosted targets outside it up to the limit, light the earliest of what remains up to its limit; full, light and dropped together are the input. |
| `PollerTiers.FillTiers` | lib/poller/poller.go:213-222 | The pass over the rest picks exactly those. |
| `PollerTiers.CapStreams` | lib/poller/poller.go:236-253 | Sorted by date and direction with ties left in order, and the first maxStreams of it, or all when the cap is not positive. |
| `PollerTiers.TiersTakeTheEarliest` | lib/poller/poller.go:201-206 | Nothing outside a tier is earlier than something in it that it competed with, and it was left out only because the tier was full. |
| `PollerTiers.EarlierMeans` | lib/poller/poller.go:237-243 | Earlier means an earlier date, or the same date and a smaller direction. |
| `PollerTiers.ShardTargets` | lib/poller/job.go:81-94 | The shards reproduce the tier in order, in chunks of at most the size when it is positive. |
| `Sorting.BeforeMeans` | lib/prober/model.go:53-61 | Strings compare at their first difference, and a prefix comes first. |
| `Text.MatchesMeans` | lib/prober/model.go:83-94 | A message matches exactly when a trimmed, non-blank pattern reads in it, ignoring case. |
| `Text.TrimSpaceMeans` | lib/prober/model.go:83-94 | Trimming takes exactly the blanks off both ends. |
| `Sharding.Cut` | lib/prober/model.go:72-79 | The loop shared by both programs cuts into full consecutive shards. |
| `Sharding.ShardingIsUnique` | lib/prober/model.go:65-81 | A list can be so cut in one way only. |
| `Refund.RefundFromRaw` | lib/ktmbcost/client.go:414-429 | Only a positive amount, stated by an object naming the ticket, or by any object of a document whose only ticket node, if any, is that ticket; and nothing that may be used is missed. Any key order. |
| `Refund.RefundInTicketNode` | lib/ktmbcost/client.go:455-476 | Finds an amount stated by an object naming the ticket, at any depth, if there is one. |
| `Refund.ExactRefundInNode` | lib/ktmbcost/client.go:478-497 | Finds an amount stated anywhere, if there is one. |
| `Refund.ExactRefundMeans` | lib/ktmbcost/client.go:499-506 | An object states the first positive one of refundAmount, refundedAmount and totalRefundAmount, in its own currency. |
| `Refund.NormalizeMeans` | lib/terminator/terminator.go:199-206 | The first currency that is not blank, trimmed and in capitals, and otherwise "MYR". |
| `Refund.TicketNodeStats` | lib/ktmbcost/client.go:431-453 | The number of ticket nodes, and whether one is this ticket, independent of the key order. |
| `Refund.AnyKeyFirst` | lib/ktmbcost/client.go:440-444 | The count is the same whichever key is taken first. |
| `Refund.CountedOnceIsUnique` | lib/ktmbcost/client.go:424-428 | With at most one counted, any two ticket nodes are equal. |
| `RefundPolicy.RefundFromPolicy` | lib/ktmbcost/client.go:393-412 | The amount of the ticket last listed under the number, the total only for a policy without tickets or whose sole ticket it is, else none. |
| `RefundPolicy.RefundAmount` | lib/terminator/terminator.go:149-172 | The same for the terminator's own copy. |
| `RefundPolicy.ReadersAgree` | lib/terminator/terminator.go:149-172 | The two agree on every policy. |
| `RefundPolicy.RefundTicket` | lib/terminator/terminator.go:174-197 | The ticket first listed under the number if it has data, or the only ticket when it bears no number. |
| `RefundPolicy.Terminate` | lib/terminator/terminator.go:100-147 | Only the ticket picked is refunded, whenever it can be, and what is reported after it is what the policy attributes to the number; nothing is reported without a refund. |
| `RefundPolicy.ReportMatchesRefund` | lib/terminator/terminator.go:113-139 | What is reported is what the refunded ticket is worth if and only if its first and last listing state the same amount; a ticket without the number reports nothing. |
| `RefundPolicy.DistinctNumbersReportTheRefund` | lib/terminator/terminator.go:164-170 | With distinct numbers the report is the refunded ticket's own amount, or the total of a policy it makes up alone. |
| `RefundPolicy.RepeatedNumberMisreports` | lib/terminator/terminator.go:156-158 | A policy listing a number twice for which 5 is refunded and 30 reported. |

## Left out

- Text handling beyond ASCII: case folding and trimming are modelled for ASCII letters and blanks.
- Machine integers: the sum of the bisection bounds, tallies and counts do not overflow in practice; amounts are real numbers, so the rounding of float32 is not modelled.
- Clocks and parsers: dates are parsed by a parameter; clocks are not before 1970.
- Ambiguous failures, where a call reports an error after taking effect: zinc's guards are there for these.
- Recovery.Unhandled: reading zinc's list of Recovering bookings is one step; its paging, and the limit of 100 on the search for a claimant, are not modelled.
- A second ticket for the same passport and departure: KTMB is taken to refuse selling one, and never to list two; the no-refund claim rests on that.
- What happens to a booking after it was parked for a human, and the interactive recover command.
- Tickets that KTMB drops from the list before they depart: a ticket paid for stays there until then unless a Completed booking records it. A scan of several pages is one step.
- One KTMB number captured by two bookings: a record with both numbers skips the claim check (lib/recoverer/process.go:85-88), so no such claim is made.
- Prober.Runner.DrainReleases: one drain at a time; other jobs working on the same list meanwhile are not modelled.
- Prober.Runner.ProbeSlot: deadlines, maintenance waits and cancellation by a sibling slot appear as the end of the script.
- Session.OneLoginAtATime: the lock never expires under a client still inside, because its 90 seconds outlast the HTTP timeout of 60.
- Differ.Differ.Report: a message that does not decode ends the subscription (lib/reserver/differ.go:174-179); that is not modelled.
- Fleet.Spawn: comparing expected and received tallies is left to the reader of the log; seeding of slots (Ensure, setSlot) is one outcome.
- RefundPolicy.Terminate: the login and the paged search for the booking's data come before it and are parameters.
- listMissing and the cost sync around it, the poller's generation claim, the reserver's diff-to-buy step and its normaliser.
- Repair of missing ticket files, the admin account check, withdrawer, pool, enricher, DNS and cron handling: plain branch tables or glue.
- HTTP, Redis, Kubernetes, encryption and JSON decoding themselves: encryption inverts, fingerprints are injective, decoded JSON is a tree.
