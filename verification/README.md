# Stoker, verified

A Dafny model of the control plane of Stoker, a load generator that drives fleets of
workers at a Splunk HTTP Event Collector target. It covers the run lifecycle and four
smaller parts around it, and proves what they promise over every input and every history.

- `RunModel`, `Lifecycle`: a run, its leases, samples, totals and event log, and one
  function per operation of `server/lifecycle.py`. A history is a sequence of timed actions:
  claims, readies, heartbeats, finals, stops, pauses, scales, supervisor passes, boot
  reconciliation. `Exec` is the run after one.
- `RunStore`: the same operations as methods on a stored run, updated in place and in
  loops, each proved to leave what the function says. `LiveView` does this for the totals
  the UI shows.
- `Frames`, `RunMachine`, `Fencing`, `Dialogue`, `Unheard`, `Rates`, `Clocks`, `Totals`,
  `Backpressure`, `Promotion`, `Contacts`, `Aborts`, `Releases`, `Endings`, `Delivery`: what
  holds after every history. Each states its property against an
  account kept beside the run, action by action: the claims, a ledger of what the answers
  said, the accepted reports, the time spent paused, the verdicts.
- `Grants`, `Operators`: what each claim and each operator call does, and when it is refused.
- `ReadyRace`, `BootSweep`: two races between sessions, as interleavings of their steps.
- `Apportion`: largest-remainder apportionment, exact and optimal.
- `Rollup`, `Maintenance`, `Retention`: down-sampling and pruning of metric samples, and what
  they leave of the totals a run shows.
- `ConfigDoc`, `ConfigRows`, `ConfigSync`: export, import, row by row, and the shared copy of
  the configuration.
- `Namespaces`, `PackMerge`, `PackBundle`, `SampleRefs`, `PackSelection`, `StanzaOptions`:
  several packs in one bundle. `StanzaMatch`: the files a stanza takes, before and after.
- `PackYaml`, `PackRename`, `PackDoc`: the pack.yaml reader, the line a rename rewrites, and
  whole documents written and read back.
- `Basics`, `Text`: options and results, trimming and ordering of strings.

`dafny verify dfyconfig.toml` checks everything.

## Findings

Things the code or its comments suggest that do not hold as said. Each has a lemma with a
failing case and one with the condition under which it does hold. That condition is exact,
an if and only if, except for the boot sweep, where it is sufficient and the failing cases
show what it guards against.

- A forced stop counts what lost and unclaimed slots last reported twice in the total shown
  (`Totals.ForcedStopCountsTwice`, `Totals.ForcedStopPreservesShownTotalIff`).
- A holder that was lost when its share changed, and comes back, is never told its new share
  (`Dialogue.LostHolderMissesARescale`, `Unheard.ToldOrMarkedIff`).
- The boot sweep can take a live run's workload if the launch began before the first
  phase's read, reuses an id about to be destroyed, or is ended while in flight. Ruling out
  all three is sufficient (`BootSweep.SweepNeverTakesALiveRun` and the three lemmas after it).
- Importing a document again can change the configuration, although re-running is said to
  change nothing: a line does not see the rows of earlier lines of its section, so a new
  repo or spec listed twice makes two rows, and a new target listed twice fails the import
  (`ConfigDoc.RepeatedRepoChanges`, `ConfigDoc.RepeatedTargetFails`,
  `ConfigDoc.ImportIdempotentIff`, `ConfigDoc.ImportSucceedsIff`).
- A pull whose import fails carries nothing new, so the next push drops from the shared copy
  what this instance neither holds nor carries (`ConfigSync.RefusedPullLosesOnPush`,
  `ConfigSync.PullAndPushKeepsIff`).
- A roll-up re-dates a slot's newest sample to the start of its bucket, so a prune can
  delete it up to a bucket early, and with it what the slot adds to the total shown
  (`Retention.RedatedSampleIsPruned`, `Retention.NewestSurvivesIff`,
  `Retention.ShownThroughUpkeep`).
- Unique merge namespaces cannot always be had, although every pack has a unique id
  (`Namespaces.MimicsHappen`, `Namespaces.NamespacesFailIff`).
- A prefixed stanza name does not always match exactly its own pack's copies of the files
  it matched: only its first alternative is prefixed, a caret no longer matches, and a
  sample in a subdirectory becomes one the engine looks at
  (`StanzaMatch.AlternationLosesAFile`, `StanzaMatch.CaretLosesItsFile`,
  `StanzaMatch.NestedSampleIsUsed`, `StanzaMatch.MatchingIsKeptIff`).
- A pack name with U+0085, U+2028 or U+2029 inside is accepted and does not survive
  the rewrite of pack.yaml, and no name does in a file that says another one further
  down (`PackRename.SeparatorInNameIsLost`, `PackRename.SecondNameIsKept`,
  `PackRename.RenameRoundTripIff`).

The comment on the roll-up says a pass never re-buckets an aggregate. It does, when later
rows of the same bucket fall due; `Rollup.MaintenanceIsInvisible` is why that is harmless to the
counters.

## Model

| member | source | states |
|---|---|---|
| Apportion.Parts | server/engines/apportion.py:18-41 | the parts add up to the total and each is the floor of its exact quota or one more |
| Apportion.LargestRemainder | server/engines/apportion.py:18-41 | the loop returns those parts; a negative total is an error, no weights give no parts, useless weights an equal split |
| Apportion.BumpInPlace | server/engines/apportion.py:37-41 | incrementing the list in place at the slots with the largest remainders is the pointwise bump |
| Apportion.PartsFollowWeights | server/engines/apportion.py:35-41 | a larger weight never gets a smaller part |
| Apportion.WholeQuotaNeverWins | server/engines/apportion.py:35-40 | a slot whose quota is already whole is never given an extra unit |
| Apportion.PartsAreOptimal | server/engines/apportion.py:18-41 | no other split of the total into whole parts has a smaller total absolute deviation from the exact quotas |
| Apportion.FixResidue | server/engines/apportion.py:89-101 | writing the missing amount into the last share in place makes the shares add up to the total |
| Apportion.SharesAreExact | server/engines/apportion.py:44-86 | for every mode, rate and weights the split either fails for a stated reason or sums exactly to the (rounded) rate |
| Apportion.SplittableIff | server/engines/apportion.py:69-83 | which rates can be split, exactly, halves rounding to the even count |
| Apportion.EqualSharesAreApportioned | server/lifecycle.py:2464-2479 | the closed form the lifecycle uses for equal weights is what apportionment returns |
| Apportion.EqualSharesAreExact | server/lifecycle.py:2464-2479 | an equal split over any number of slots sums exactly to the rate |
| RunStore.BuildShareList | server/lifecycle.py:2470-2479 | the loops of apportionment, run with equal weights, return the lifecycle's share list, errors included |
| Frames.AlwaysWellFormed | server/lifecycle.py:677-794 | after every history the slots are 0 to workers-1, one for a replay, with pairwise different ids, none still to be drawn, and a rate that can be split |
| RunMachine.AlwaysSound | server/lifecycle.py:2059-2247 | the machine's invariant after every history: ended iff stamped, T0 set from release on and not before, nobody running before T0, draining iff a reason other than a failure, completed only with a finished worker and data delivered, nobody live once completed or stopped |
| RunMachine.EndAndT0AreFinal | server/lifecycle.py:2222-2252 | from any point of a history on, a terminal state, its reason and its end stay, and so does T0 once set |
| RunMachine.ReasonTracksStop | server/lifecycle.py:523-538 | without boot reconciliation the recorded reason is an operator stop iff some stop reached the run before it had ended |
| RunMachine.StoppedIffAsked | server/lifecycle.py:2141-2172 | without boot reconciliation an ended run is stopped iff an operator stop was accepted |
| Fencing.IssueRetires | server/lifecycle.py:1611-1617 | a claim puts a fresh id on the slot and takes the old one off every slot |
| Fencing.ShrinkRetires | server/lifecycle.py:734-740 | scaling down takes the removed slots' ids off every slot |
| Fencing.RetiredForever | server/lifecycle.py:1595-1651 | an id once off its slot never comes back to any slot, over every history |
| Fencing.RetiredIsPowerless | server/lifecycle.py:1954-1965 | a ready, heartbeat or final carrying such an id changes nothing at all |
| Fencing.StaleCallsAreErased | server/lifecycle.py:1755-1817 | erasing a stale call anywhere in a history leaves the same run at the end, whatever follows |
| Fencing.SlotBelongsToLatestClaimant | server/lifecycle.py:1604-1651 | after every history each slot carries the id and holder of its latest claim, told from the claims alone; an unclaimed slot has no holder |
| Dialogue.AlwaysInformed | server/lifecycle.py:1863-1920 | after every history, every lease whose id was never lost: its share was sent to its holder or is marked to be, and it runs only if answered release |
| Dialogue.SharesAndReleaseReachTheHolder | server/lifecycle.py:1880-1920 | the same for one slot, against an observer's ledger of the answers sent: retargets are never lost and release precedes generation |
| Unheard.AlwaysHeard | server/lifecycle.py:1863-1932 | after every history every claimed lease was sent a share, its share is the one sent or is marked to be sent unless its id is one the ledger lists as rewritten while not live and not answered since, and an id so listed carries no mark |
| Unheard.ToldOrMarkedIff | server/lifecycle.py:749-787 | over every history a claimed lease whose share is not the one its holder was told is marked to be sent iff its id was not rewritten while not live with nothing said since |
| Unheard.ChangeMarksExactlyTheLive | server/lifecycle.py:744-787 | a scale or a rescale that changes the run leaves a mark on exactly the leases that were live |
| Dialogue.LostHolderMissesARescale | server/lifecycle.py:1880-1881 | for every run and rate, released or not: a lost holder that returns after a rescale is live again on the new stored share and is told nothing of it |
| Dialogue.PromotionsAreDead | server/lifecycle.py:1904-1920 | the promotions to running in the pause, retarget and steady branches never fire |
| Promotion.AnswerIff | server/lifecycle.py:1863-1920 | the answer to a heartbeat, exactly: drain when the run is ending or the protocol unsupported, release with T0 to a worker not started, hold when paused, the new share when marked, else continue |
| Promotion.StrangerIsSuperseded | server/lifecycle.py:1812-1816 | a caller that does not hold the slot is told so and changes nothing |
| Promotion.HeartbeatPromotes | server/lifecycle.py:1893-1932 | a heartbeat is noted and its sample kept; one answered release at or after T0 starts the worker and leaves the run not releasing; a lost worker is live again; a share sent is no longer marked; nothing else moves the run |
| Promotion.ReportsAreStored | server/lifecycle.py:2334-2391 | the work and engine a heartbeat reports are stored, a reason only without work and cut to 300 characters; a report left out changes nothing |
| Promotion.RunningWorkerMeansReleased | server/lifecycle.py:1923-1932 | after every history a run with a running worker that was never lost is not left releasing |
| Grants.GrantIff | server/lifecycle.py:1566-1741 | which lease a claim is given, exactly: the holder's own, else the slot asked for if open, else the lowest open; refused iff the run has ended or there is none |
| Grants.IssuedLeaseIs | server/lifecycle.py:1604-1651 | what a claim puts on the slot: a fresh id, the holder, the instant, a start of its own once released, one restart more on a takeover and its work report gone |
| Grants.TakeoverTouches | server/lifecycle.py:1654-1714 | a takeover changes another lease only in a released, degraded run at work, only in its share, and marks it iff the share is not the one it had |
| Grants.RetriedClaim | server/lifecycle.py:1593-1602 | a holder that claims again, with whatever hint, is given the lease it was given |
| Contacts.RowsKeepTheCalls | server/lifecycle.py:1593-1651 | after every history a slot's row has the instant of its holder's last call taken in and the number of takeovers |
| Contacts.LostExactlyAfterSilence | server/lifecycle.py:890-912 | after every history, told from those calls: a pass loses every live slot silent for 30 s, 60 s after boot at the earliest, and no other while the run is neither past its wait nor 45 s into a drain |
| Releases.ReleasedIff | server/lifecycle.py:1986-2037 | a ready call releases the fleet, for two seconds on, iff somebody is ready and nobody is waited for any more |
| Releases.PassEndsTheWait | server/lifecycle.py:850-871 | what a pass makes of the wait after 120 s: release of those ready, two seconds on and degraded if some are missing; failure if all had to be ready, or if nobody is left to wait for; else more waiting |
| Releases.T0IsTwoSecondsOn | server/lifecycle.py:2020-2037 | in every history T0 is two seconds after the step that set it, a release check or a pass |
| Aborts.LogNamesTheRefused | server/lifecycle.py:1268-1278 | the log names exactly the slots whose heartbeats reported refused credentials |
| Aborts.GivenUpIff | server/lifecycle.py:941-992 | after every history, told from the calls: a pass over an ongoing run gives it up for lost workers iff it is released, more than half its slots are gone and none of those was heard from for 300 s, and else for refused credentials iff at least half its slots, and one at least, reported them |
| Endings.CompletionIff | server/lifecycle.py:2059-2201 | a run that completion ends is completed iff a worker has finished, events were delivered and no fault or stop is on record; it is stopped iff a stop is; and which reason is recorded |
| Endings.ResolvedRunEnds | server/lifecycle.py:2059-2123 | no report and no pass leaves standing a run with nobody at work and somebody finished, or in a drain somebody lost |
| Endings.EndsCompletedIff | server/lifecycle.py:2141-2172 | in every history the step that ends a run leaves it completed iff a worker has finished, events were delivered and the reason is a natural end, the duration or backpressure |
| Endings.ForcedStopEnds | server/lifecycle.py:554-568 | a forced stop ends the run there and then, live leases done, free ones lost |
| Operators.LaunchIff | server/lifecycle.py:238-402 | a launch is refused iff the rate cannot be split; else every field of the run and its leases as launched |
| Operators.PauseIff | server/lifecycle.py:615-645 | only a running run is paused and only a paused one resumed, with nothing else touched |
| Operators.PauseThenResume | server/lifecycle.py:571-645 | a pause that is resumed leaves the run as it was but for the time it took and two entries in the log |
| Operators.StopIff | server/lifecycle.py:523-553 | a stop drains a run that has not ended, banks its pause and leaves its workers at work |
| Operators.ScaleIff | server/lifecycle.py:677-759 | when a scale is refused, exactly; taken, the slots, holders, fresh leases and even shares it leaves, and who is marked |
| Operators.RescaleIff | server/lifecycle.py:762-794 | when a new rate is refused, exactly; taken, the shares it leaves and who is marked |
| Operators.ReadyIff | server/lifecycle.py:1744-1765 | a ready call of the slot's holder is noted and makes a claimed lease ready; any other changes nothing |
| Operators.ReconcileIff | server/lifecycle.py:1335-1399 | at boot a run is given up iff its workload is gone or was never recorded, its workers only in the first case |
| Operators.LogTellsTheState | server/lifecycle.py:2222-2252 | after every history the state changes in the log follow on from one another, from pending to the state the run is in |
| Delivery.SamplesAreBeats | server/lifecycle.py:1782-1854 | the stored samples are the heartbeats taken in, no more and no fewer, in order |
| Delivery.VerdictFromHeartbeats | server/lifecycle.py:1037-1099 | after every history delivery is failing iff, over the live slots' last two heartbeats, 5xx and timeouts rose by at least the set fraction of all sends and there were sends |
| Delivery.VerdictExtremes | server/lifecycle.py:1072-1099 | a pass is never failing when no failed send shows, and is failing, whatever fraction is set, when some show and no accepted one does |
| Delivery.JudgedOnlyWhileDelivering | server/lifecycle.py:1010-1036 | switched off, or on a run not released, paused, winding down or without a worker at work, the check does nothing |
| Delivery.VerdictActs | server/lifecycle.py:1037-1069 | what the check writes down and does for each verdict and streak |
| Rates.RateIsConserved | server/lifecycle.py:677-794 | in every reachable run not degraded, the shares on its slots add up to exactly its rate |
| Rates.PartialReleaseKeepsRateOnTheLive | server/lifecycle.py:2010-2037 | a partial release leaves the whole rate on the workers that made it |
| Rates.TakeoverKeepsRateOnTheLive | server/lifecycle.py:1654-1714 | claiming back a lost slot of a degraded run leaves the whole rate on the workers now live |
| Clocks.AlwaysDrainClock | server/lifecycle.py:533-538 | over every history at most two events start a drain, the second only by an operator stop of a run already draining |
| Clocks.GraceEndsDrain | server/lifecycle.py:1178-1201 | a supervisor pass past the grace ends a draining run whatever its leases are doing |
| Clocks.DrainIsBounded | server/lifecycle.py:1178-1201 | after every history, the first pass 45 s or more after a draining run's clock last started leaves it terminal |
| Clocks.PausedSecondsIsTimePaused | server/lifecycle.py:571-591 | over any number of pauses paused_seconds is the time the run has spent in the paused state |
| Clocks.DurationCountsDeliveryOnly | server/lifecycle.py:915-938 | a pass over a delivering run gives it the reason duration-complete, draining or ending it, iff time since T0 less time paused has reached the duration |
| Clocks.NoDurationNeverEnds | server/lifecycle.py:915-926 | a pass never ends a run for a duration that is missing or zero |
| Totals.TotalsCountEachReportOnce | server/lifecycle.py:1967-1975 | without forced stops the totals are the sum of one accepted report per finished lease id, under retries, supersession and scaling |
| Totals.ShownTotal | server/lifecycle.py:2825-2873 | the total shown is every report once plus the newest heartbeat of every unfinished slot once |
| Totals.ForcedStopShows | server/lifecycle.py:554-567 | a forced stop changes the total shown by exactly what lost and unclaimed slots last reported, counted again |
| Totals.ForcedStopPreservesShownTotalIff | server/lifecycle.py:2877-2890 | so a forced stop preserves the total shown iff no lost or unclaimed slot has counted anything |
| Totals.ForcedStopCountsTwice | server/lifecycle.py:554-567 | a reachable run, one worker that reports n events and is lost, whose forced stop shows 2n |
| LiveView.NewestIsFirst | server/lifecycle.py:2849-2873 | of the rows with a slot's newest instant, the first one met is the one counted |
| LiveView.SevenAreShown | server/lifecycle.py:2821-2873 | a slot shows the seven cumulative counters of its newest sample, and no others |
| LiveView.AddCounters | server/lifecycle.py:2870-2873 | the loop over the counters adds exactly the cumulative ones a sample carries |
| LiveView.ShownTotals | server/lifecycle.py:2825-2873 | the loop over newest samples, with its sets of pending and seen slots, computes the total shown |
| Backpressure.LogRefinesClock | server/lifecycle.py:1102-1129 | folding the event log gives one optional instant after every history: the start of an unbroken streak of failing verdicts, no earlier than the last step |
| Backpressure.ActsOnlyOnSustainedFailure | server/lifecycle.py:1037-1069 | the supervisor acts only when every pass judged since that instant was failing and the sustained window has gone by |
| Backpressure.StepsAreSpaced | server/lifecycle.py:1104-1129 | consecutive steps down are at least the sustained window apart |
| Backpressure.RateIsGeometric | server/lifecycle.py:1132-1175 | with no operator rescale the rate is the requested one times the factor once per step, never below the floor |
| Backpressure.StepsAreBounded | server/lifecycle.py:1155-1159 | so the factor to the number of steps is at least the minimum fraction |
| Backpressure.StepCountIsBounded | server/lifecycle.py:1155-1159 | for a factor between 0 and 1 the number k of steps satisfies fraction * (factor + k * (1 - factor)) <= factor, which bounds k for every positive fraction |
| Backpressure.StepsUntilTheFloorThenDrains | server/lifecycle.py:1050-1064 | a pass that ends a sustained window steps down iff the next power of the factor is at or above the minimum fraction, and else drains |
| Backpressure.OriginalIsWrittenOnce | server/lifecycle.py:1155-1163 | the rate the floor is measured against is written once, whatever rescales follow |
| ReadyRace.NoMissedRelease | server/lifecycle.py:1762-1779 | with READY committed before release is evaluated on a later snapshot, every interleaving of a fleet's ready calls has T0 set when the last returns, and never before the last slot is ready |
| ReadyRace.OverlapMissesTheRelease | server/lifecycle.py:1766-1777 | for every fleet of two or more, calls that read before they commit can all return with every slot ready and T0 not set |
| BootSweep.SweepNeverTakesALiveRun | server/lifecycle.py:1446-1484 | under every orderly interleaving with launches, a workload the sweep destroys belongs to a run with no row or a terminal one, then and from then on; orderliness is sufficient, and each of its three parts is needed by the witnesses below |
| BootSweep.LiveRunKeepsItsWorkload | server/lifecycle.py:1474-1484 | no destroy takes the workload of a live run |
| BootSweep.UndisturbedSweep | server/lifecycle.py:1415-1484 | left to itself, a sweep of a fleet destroys exactly the workloads it owns whose runs are not live, and spares all others |
| BootSweep.UndisturbedLaunch | server/lifecycle.py:379-401 | left to itself, a launch ends with its row provisioning and its workload up, or with its row failed and nothing else changed |
| BootSweep.ReusedIdIsTaken | server/lifecycle.py:1476-1484 | orderliness is needed: an id launched between its recheck and its destroy is taken |
| BootSweep.EarlyLaunchIsTaken | server/lifecycle.py:1362-1370 | orderliness is needed: a launch whose row is read by the first phase is failed, swept and revived |
| BootSweep.EndedLaunchIsTaken | server/lifecycle.py:379-399 | orderliness is needed: a run ended while being launched is swept and revived |
| RunStore.Store.Find | server/lifecycle.py:2511-2521 | the first lease picked, or none |
| RunStore.Store.NextClaim | server/lifecycle.py:1726-1741 | the hinted slot when it is claimable, else the lowest claimable one |
| RunStore.Store.ForEach | server/lifecycle.py:562-566 | rewriting leases in place one by one is the rewrite of the whole list |
| RunStore.Dealt | server/lifecycle.py:1690-1714 | the k-th participant gets the k-th share, an unchanged share is left alone, the claimer is written without a mark |
| RunStore.Store.MoveTo | server/lifecycle.py:2222-2252 | the stored run becomes Transition of what it was |
| RunStore.Store.CompleteIfResolved | server/lifecycle.py:2059-2123 | the stored run becomes MaybeComplete of what it was |
| RunStore.Store.FoldHeartbeats | server/lifecycle.py:2877-2890 | the loop over the cumulative keys, on the totals the view's loop computes, takes exactly those over |
| RunStore.Store.StopRun | server/lifecycle.py:523-568 | the stored run becomes Stop of what it was, heartbeats folded in by the loops |
| RunStore.Store.PauseRun | server/lifecycle.py:615-631 | the stored run becomes Pause of what it was; refused unless running |
| RunStore.Store.ResumeRun | server/lifecycle.py:634-645 | the stored run becomes Resume of what it was; refused unless paused |
| RunStore.Store.ScaleRun | server/lifecycle.py:677-759 | the stored run becomes Scale of what it was, rows added or deleted in loops |
| RunStore.Store.RescaleRun | server/lifecycle.py:762-794 | the stored run becomes Rescale of what it was |
| RunStore.Store.ClaimLease | server/lifecycle.py:1566-1651 | the stored run becomes Claim of what it was, and the lease granted is the held one, the hinted one or the lowest |
| RunStore.Store.JoinFleet | server/lifecycle.py:1654-1723 | the leases become the takeover split |
| RunStore.Store.CommitReady | server/lifecycle.py:1744-1765 | the stored run becomes MarkReady of what it was; refused unless the caller holds the slot |
| RunStore.Store.ReleaseFleet | server/lifecycle.py:1986-2037 | the stored run becomes EvaluateRelease of what it was |
| RunStore.Store.SplitOverReady | server/lifecycle.py:2040-2056 | the leases become the split over the ready slots |
| RunStore.Store.RecordHeartbeat | server/lifecycle.py:1782-1854 | the stored run and the answer are Heartbeat of what it was |
| RunStore.Store.Answer | server/lifecycle.py:1863-1932 | the stored run and the answer are CommandFor of what it was |
| RunStore.Store.RecordFinal | server/lifecycle.py:1935-1980 | the stored run becomes Final of what it was: one fold per lease |
| RunStore.Store.TimeOutRelease | server/lifecycle.py:850-871 | the stored run becomes ReleaseTimeout of what it was |
| RunStore.Store.NewestLapse | server/lifecycle.py:963-974 | the newest last heartbeat among leases lost after running |
| RunStore.Store.SlotsRefused | server/lifecycle.py:1268-1278 | the set of slots that reported an auth failure |
| RunStore.Store.AbortIfCollapsed | server/lifecycle.py:941-992 | the stored run becomes CheckAutoAbort of what it was |
| RunStore.Store.Deltas | server/lifecycle.py:1072-1099 | accepted and failed attempts over each live slot's two newest samples |
| RunStore.Store.StreakStart | server/lifecycle.py:1102-1129 | the loop over the log computes the open streak's start |
| RunStore.Store.LowerRate | server/lifecycle.py:1132-1175 | the rate is stepped, and the original noted, exactly when it may be |
| RunStore.Store.AnswerBackpressure | server/lifecycle.py:995-1069 | the stored run becomes CheckBackpressure of what it was |
| RunStore.Store.DrainStart | server/lifecycle.py:1293-1307 | the newest event that began a drain |
| RunStore.Store.ReapIfOverdue | server/lifecycle.py:1178-1201 | the stored run becomes ReapDraining of what it was |
| RunStore.Store.DrainWhenOver | server/lifecycle.py:915-938 | the stored run becomes CheckDuration of what it was |
| RunStore.Store.Supervise | server/lifecycle.py:843-887 | one supervisor pass makes the stored run Tick of what it was |
| Rollup.FaceKept | server/metrics_lifecycle.py:172-185 | collapsing a bucket at an earlier cutoff leaves the row and counters every bucket will show at a later one |
| Rollup.MaintenanceIsInvisible | server/metrics_lifecycle.py:133-187 | any samples and partial passes, interleaved and stopped anywhere, roll up to what the samples alone roll up to |
| Rollup.RollupIsConfluent | server/metrics_lifecycle.py:133-187 | two histories of the same samples agree on every row and cumulative counter once rolled up to one cutoff |
| Rollup.RepeatedPassIsIdle | server/metrics_lifecycle.py:173-174 | a pass over rolled-up rows changes nothing |
| Rollup.NewestUnchanged | server/metrics_lifecycle.py:190-210 | after any interleaving of samples and partial roll-ups a slot's newest cumulative values are those of its newest sample |
| Rollup.LatestAfterCollapse | server/metrics_lifecycle.py:172-210 | a collapse that takes in a slot's newest row re-dates it to its bucket's start and keeps its counters; any other leaves it where it is |
| Rollup.RisesThroughMaintenance | server/metrics_lifecycle.py:57-70 | a counter that never falls over the samples never falls after any interleaving of samples and partial roll-ups |
| Rollup.GaugesWithinThroughMaintenance | server/metrics_lifecycle.py:204-205 | through any such history, means over means included, every row of a bucket stays within the range of that bucket's samples |
| Rollup.CollapseTakesTheMean | server/metrics_lifecycle.py:190-210 | a collapsed bucket has, at its start, its newest row's counters and exactly the mean of the gauges its rows have, none if none |
| Maintenance.FullPass | server/metrics_lifecycle.py:133-187 | after a full pass nothing is left to collapse and every bucket shows what it would have shown |
| Maintenance.PassKeepsNewest | server/metrics_lifecycle.py:133-187 | a full pass keeps the newest row's counters |
| Maintenance.PassesEqualOnePass | server/metrics_lifecycle.py:133-187 | passes at any cutoffs up to the last, with stops and re-runs, then one at the last, leave the counters of one pass at the last |
| Maintenance.SampleTable.Group | server/metrics_lifecycle.py:160-165 | the dictionary holds every old row in its bucket's list and nothing else |
| Maintenance.SampleTable.RollUp | server/metrics_lifecycle.py:133-187 | the loops give a full pass on every series: aggregates where a bucket had several old rows, every other row as it was; rows before plus aggregates written are rows after plus rows removed, at least two removed for each written |
| Maintenance.SampleTable.Prune | server/metrics_lifecycle.py:213-236 | rows before the cutoff are deleted, chunk by chunk, all others kept, and the count is right |
| Retention.NewestSurvivesIff | server/metrics_lifecycle.py:124-125 | over every history of samples, roll-ups and prunes, the newest sample's counters are still the newest stored iff no prune reached the instant they were then stored at; otherwise nothing is left of the slot |
| Retention.PruneBehindTheBucket | server/metrics_lifecycle.py:115-125 | prunes up to the start of the newest sample's bucket never take it, whatever roll-ups come between |
| Retention.RedatedSampleIsPruned | server/metrics_lifecycle.py:172-187 | a history in which a roll-up re-dates the newest sample and a prune with a cutoff before that sample's own instant deletes it |
| Retention.NewestIsShown | server/lifecycle.py:2849-2873 | what a slot adds to the total shown is the newest row of its series, cumulative keys only |
| Retention.PassKeepsShownTotals | server/lifecycle.py:2825-2873 | a full roll-up of every slot leaves the totals a run shows as they were |
| Retention.ShownThroughUpkeep | server/lifecycle.py:2825-2873 | whatever samples, roll-ups and prunes each slot has been through, the total shown falls short of what was counted by exactly what the pruned newest samples of unfinished slots had counted, and not at all iff they had counted nothing |
| ConfigDoc.ImportIdempotentIff | server/configio.py:161-259 | for every configuration and document that imports: importing it again changes nothing iff, for each new repo or spec name listed more than once, the later lines set nothing different from the row the second import finds |
| ConfigDoc.ImportIsIdempotent | server/configio.py:161-259 | so with no new repo or spec name listed twice, importing twice is importing once: unnamed rows, repeated known names, unplaced specs and foreign secrets included |
| ConfigDoc.ImportSucceedsIff | server/configio.py:186-259 | an import goes through iff no target name new to the instance is listed twice and no spec is left without a target or a pack |
| ConfigDoc.RepeatedRepoChanges | server/db.py:110-113 | for every configuration: a new url listed twice with two refs imports, and importing the same document again changes the result |
| ConfigDoc.RepeatedTargetFails | server/models.py:84 | a new target name listed twice fails the whole import |
| ConfigDoc.RestoreInvertsExport | server/configio.py:90-123 | importing an export onto an empty instance with the same packs gives back every row, rows that share a name included, in name order, and that exports to the same document |
| ConfigDoc.ImportSection | server/configio.py:186-256 | the loop over a section's lines, each looked up among the rows stored before the section: the rows, how many were made, whether any line was skipped |
| ConfigRows.ColumnIsWritten | server/configio.py:197-256 | a row already here has, in each column the document may write, what the last line taken for it says |
| ConfigRows.ColumnIsKept | server/configio.py:197-256 | a column no line taken for the row says, or none may write, stays as it was |
| ConfigRows.SecretsAreKept | server/configio.py:199-222 | a document under another key leaves the secrets of every row already here as they were |
| ConfigRows.ReferencesAreTheLast | server/configio.py:246-256 | a spec already here has the target and pack of the last line taken for it |
| ConfigRows.LaterRowsStay | server/configio.py:191-256 | rows after the first of a name are never touched |
| ConfigRows.ImportedNewRows | server/configio.py:186-256 | after the rows that were here come the new ones, one for every line taken whose name was not here, with its columns, the defaults for the rest, and its references |
| ConfigSync.SectionRows | server/configsource.py:280-290 | a section of the document holds exactly the instance's rows and the carried rows it lacks |
| ConfigSync.LocalVersionWins | server/configsource.py:284-290 | a pushed copy holds a carried row only where this instance has no row of that name |
| ConfigSync.DocumentIsIdempotent | server/configsource.py:274-296 | building the document again gives the same document and carries the same rows |
| ConfigSync.QuietAfterPush | server/configsource.py:323-337 | with no edit since a push, maybe_push changes nothing |
| ConfigSync.QuietAfterPull | server/configsource.py:232-337 | after a pull that leaves nothing of the instance's own to say, maybe_push writes nothing |
| ConfigSync.SwitchedOffIsQuiet | server/configsource.py:323-337 | switched off, maybe_push changes nothing |
| ConfigSync.SharedCopyIsCurrent | server/configsource.py:323-337 | after a maybe_push that can write, the shared copy has the rows of the document, section by section, and its key, over every history |
| ConfigSync.NothingPulledIsLost | server/configsource.py:198-239 | after a pull that applies and any edits, pulls and pushes, every named pulled row is in the shared copy unless deleted here |
| ConfigSync.PulledRowStaysWhole | server/configsource.py:225-296 | after a pull that applies and any edits, pulls and pushes, a row the instance has never had stands in the shared copy as the very line pulled, every column, target and pack |
| ConfigSync.AlwaysWellCarried | server/configsource.py:225-231 | carried rows are filed under their own names after every history |
| ConfigSync.PushWritesIff | server/configsource.py:274-320 | a push writes a row of a name iff the instance has one or carries one |
| ConfigSync.PullAndPushKeepsIff | server/configsource.py:198-320 | after every history of an instance that began carrying nothing: a row of the shared copy is still there after a pull and a push iff the pull applies, or the row is carried from an earlier pull, or the instance has one of that name |
| ConfigSync.RefusedPullLosesOnPush | server/configsource.py:220-231 | so after a pull whose import fails a push drops every shared row that the instance neither has nor carries |
| ConfigSync.RepeatedTargetIsRefused | server/configsource.py:220-231 | a shared copy that lists a target new to the instance twice is such a pull |
| ConfigSync.AppendCarried | server/configsource.py:280-296 | the document loop appends the carried rows not present and keeps just those |
| ConfigSync.ConfigSource.Import | server/configio.py:161-259 | the configuration becomes Imported of what it was, or stays when the import fails |
| ConfigSync.ConfigSource.Uncovered | server/configsource.py:225-230 | the named rows of a section that the table lacks |
| ConfigSync.ConfigSource.PullShared | server/configsource.py:198-239 | the state becomes Pulled of what it was; no document or a failed import, no change |
| ConfigSync.ConfigSource.Document | server/configsource.py:274-296 | the document, and the carried rows trimmed to those still missing here |
| ConfigSync.ConfigSource.PushNow | server/configsource.py:299-320 | the state becomes Pushed of what it was; a failed write leaves copy and digest |
| ConfigSync.ConfigSource.PushIfChanged | server/configsource.py:323-337 | the state becomes MaybePushed of what it was |
| Namespaces.NamespaceIsPlain | server/bundles.py:1334-1348 | a namespace is not empty, has only word characters and hyphens, no two hyphens together and none at an end |
| Namespaces.PlainStays | server/bundles.py:1334-1348 | a name that is already such is its own namespace |
| Namespaces.PrefixIsInjective | server/bundles.py:1317-1321 | prefixed names are equal only if both namespaces and both names are |
| Namespaces.ChosenIsPlain | server/bundles.py:1351-1372 | namespaces chosen for a selection, ids added or not, are plain |
| Namespaces.NamespacesFailIff | server/bundles.py:1351-1372 | unique namespaces fail iff some pack's own namespace is another's with its id added |
| Namespaces.MimicsHappen | server/bundles.py:1351-1372 | three packs with different ids for which they fail |
| Namespaces.PackNamespaces | server/bundles.py:1351-1372 | the loops count, choose and check; success iff the choices are distinct |
| PackMerge.MergeIgnoresOrder | server/bundles.py:1556-1580 | every permutation of the inputs merges to the same result, errors included |
| PackMerge.AddPacksIff | server/bundles.py:1592-1618 | with plain distinct namespaces the packs merge iff each can by itself, and then every stanza and sample is held |
| PackBundle.MergeHoldsEveryPack | server/bundles.py:1556-1625 | a merge fails only over one pack; otherwise its stanzas are exactly each pack's own with its own globals, its files exactly each pack's samples |
| PackBundle.MergedStanzasDistinct | server/bundles.py:1607-1612 | no two stanzas of a merge have the same name |
| PackBundle.SortByNamespace | server/bundles.py:1574 | inputs in ascending order of namespace |
| PackBundle.PackGlobals | server/bundles.py:1603-1606 | a pack's global sections folded, later over earlier |
| PackBundle.AddOne | server/bundles.py:1592-1618 | one turn of the loop over packs, collisions found as they arise |
| PackBundle.BuildFromPacks | server/bundles.py:1556-1625 | the whole loop computes the merge |
| SampleRefs.RewrittenFollowsItsSample | server/bundles.py:1425-1460 | a reference to a pack's sample, rewritten, resolves among the merged files to that sample's copy, column kept |
| PackSelection.SelectionOrderIgnored | server/lifecycle.py:517-520 | the same packs give the same bundle, or the same refusal, in whatever order they are selected |
| PackSelection.BundledIff | server/lifecycle.py:509-520 | two packs or more are bundled iff none mimics another and each can be merged by itself; the bundle then holds exactly every pack's stanzas and samples |
| PackSelection.FileOptionsFollow | server/bundles.py:1463-1482 | every file option of every bundled stanza that named a sample of its pack names that sample's own copy in the bundle |
| SampleRefs.EverySpellingIsFound | server/bundles.py:1425-1457 | a sample is found by its path under samples/, with or without a leading dot, by its bare name at the top, and with any column |
| StanzaOptions.EverySectionIsBundled | server/bundles.py:1463-1482 | every section that is not pack-wide is in the bundle with exactly the keys in force for it, its own value else that of the last pack-wide section to set it, but for renamed paths |
| StanzaOptions.OnlySectionsAreBundled | server/bundles.py:1592-1618 | and every stanza of a bundle is such a section of one of its packs |
| StanzaMatch.PrefixedStanzaTakes | server/bundles.py:1284-1287 | for every namespace, every stanza name that compiles and every file: prefixed, the name compiles and takes the file iff its first alternative, carets never matching, takes what follows the prefix, or, where that one does not match, the later alternatives take the file itself |
| StanzaMatch.PrefixKeepsMatching | server/bundles.py:1284-1287 | with one alternative and no caret it takes exactly its own pack's copies of the files the name took |
| StanzaMatch.AlternationLosesAFile | worker/engines/eventgen/splunk_eventgen/lib/eventgenconfig.py:772-813 | for every namespace and any two names a and b with a no prefix of b, the stanza a-bar-b used b and no longer takes it once merged |
| StanzaMatch.AlternationTakesAnothers | worker/engines/eventgen/splunk_eventgen/lib/eventgenconfig.py:772-813 | and it uses another pack's file when its second alternative is that file's merged name |
| StanzaMatch.CaretTakesNothing | worker/engines/eventgen/splunk_eventgen/lib/eventgenconfig.py:772-785 | a stanza name of one alternative that begins with a caret takes no file once prefixed |
| StanzaMatch.CaretWordUsedNothing | worker/engines/eventgen/splunk_eventgen/lib/eventgenconfig.py:812-813 | a caret before a plain word used no file before either, since the search is on an absolute path |
| StanzaMatch.CaretLosesItsFile | worker/engines/eventgen/splunk_eventgen/lib/eventgenconfig.py:772-813 | a caret before a wildcard did use its file, and takes none once merged |
| StanzaMatch.MergedStanzaUses | server/bundles.py:1284-1290 | for every stanza name that compiles and every pair of packs, exactly when the merged stanza of the one uses a merged sample of the other, both of the engine's tests included |
| StanzaMatch.MatchingIsKeptIff | server/bundles.py:1284-1290 | for every stanza name that compiles and every set of samples, its pack's and the other packs': it uses its own samples as before and no other's iff its later alternatives use no other pack's sample, it uses no flattened sample of a subdirectory, and it uses each other sample under the new name just when it did under the old |
| StanzaMatch.OneAlternativeIsKeptIff | server/bundles.py:1284-1290 | with one alternative and no caret, iff it matches the flattened name of no sample in a subdirectory |
| StanzaMatch.NestedSampleIsUsed | server/bundles.py:1288-1290 | a sample in a subdirectory, which its stanza did not look at, that is used once merged |
| PackYaml.SplitOfJoin | server/packrename.py:77-90 | lines written out one to a line are read back as they were |
| PackYaml.StripCommentLoop | server/bundles.py:158-174 | the loop keeps what precedes a hash outside quotes, right-trimmed |
| PackYaml.ParseText | server/bundles.py:177-221 | the loop over lines computes the parse: quoted text and bare text that is no boolean, null or number are strings, and a string is the same however written |
| PackYaml.CleanNameIff | server/packrename.py:44-58 | a name is accepted iff trimmed it is storable, is stored trimmed, and a storable name is stored as it is |
| PackYaml.RewriteFile | server/packrename.py:67-91 | the loops replace the first name line or insert one after leading comments; no file, nothing |
| PackRename.NameLineReads | server/packrename.py:61-64 | the written line reads back as the name, whatever quotes, hashes or colons it holds |
| PackRename.NameFormReads | server/packrename.py:36 | a line the rewriter takes for the name is one the parser takes for it |
| PackRename.RenameRoundTripIff | server/packrename.py:67-91 | for every storable name and every text: the rewritten text parses to the old parse with only the name changed, to the new one, iff the name has no character that splits lines and no line after the written one says another name; with such a line the parse does not change at all |
| PackRename.SeparatorInNameIsLost | server/packrename.py:37-58 | an accepted name with U+2028 in it is not read back, whatever the file |
| PackRename.SecondNameIsKept | server/packrename.py:77-83 | a file that says its name twice reads the same after any rename |
| PackRename.NameGoesAfterComments | server/packrename.py:84-90 | without a name line, the new one goes after the leading comments, indented ones too, and before anything else |
| PackDoc.TextIsReadBack | server/bundles.py:196-221 | every two-level document of plain keys and quotable values, written out, is read back as meant: every key of every section, the last value of each |
| PackDoc.CommentIsIgnored | server/bundles.py:158-174 | what follows a hash after a quoted value is not read |
| PackDoc.ListLineSaysNothing | server/bundles.py:206-208 | a line of a list says nothing |
| PackDoc.NoColonSaysNothing | server/bundles.py:206-208 | nor does a line without a colon |
| PackDoc.EmptyNestedIsIgnored | server/bundles.py:218-220 | a key inside a section that says no value is not read |
| PackDoc.BareOrQuoted | server/bundles.py:177-193 | a bare value is the string it spells unless it spells a boolean, a null or a number |

## Left out

- Lifecycle: every operation is one atomic step at one instant; sessions, transactions and commits are modelled only in ReadyRace and BootSweep.
- Lifecycle: provisioning from the row's commit to the move to provisioning is one step there; BootSweep splits it.
- Lifecycle: lease ids are drawn from a counter, so they are new by construction; the random 48-bit ids of the source are new only with overwhelming probability.
- Lifecycle: events with equal instants are read back in the order written; the source's query leaves that order to the database.
- Lifecycle: events kept only for audit, log lines, log tails and the driver calls of stop, pause and reap are not modelled; a driver is a flag saying whether it succeeded.
- Lifecycle: `paused_s` and the token refresh on a heartbeat's answer, slices, overrides, backfill planning, target caps and target health are not modelled.
- Lifecycle: totals are natural numbers per counter; text and boolean keys of a summary, which keep the last writer, are not modelled.
- Lifecycle: share_json is a record of rate, retarget mark, assigned work and engine report; the engine names a report may carry are not checked again.
- Lifecycle: a supervisor step factor of zero or less, which the configuration's comment excludes but nothing checks, makes the source's rescale raise; the model records the step and leaves the rate.
- Backpressure.RateIsGeometric: for a positive step factor only, as the configuration documents it.
- Apportion: rates are real numbers, so the float residue is zero; infinite and not-a-number weights have no counterpart, and the proportional claims are for weights that are not negative.
- RunStore.Store.Answer: leaves out the three promotions that Dialogue.PromotionsAreDead shows never fire.
- RunStore.Store.StopRun: for leases with distinct slots, which the table's unique constraint on run and slot guarantees and every reachable run has (Frames.AlwaysWellFormed).
- RunStore.Store.Deal: builds the new list of leases and stores it, where the source writes each lease.
- ReadyRace.NoMissedRelease: says that T0 is set, not that it is set once: two sessions that both saw it unset may both write it.
- BootSweep: one driver at a time; destroys that fail and drivers that cannot list are simply steps not taken.
- Maintenance.SampleTable.RollUp: its commit every chunk is not modelled; that a stop between commits is harmless is Rollup.MaintenanceIsInvisible.
- Rollup: one gauge stands for all; instants of one slot are distinct and not before the epoch.
- ConfigDoc: column values are uninterpreted text, never null, the tables' column defaults are given, and references go by name, so renaming a row is not modelled; non-object rows and the version check are not either. Only target names are taken to be unique; of several rows with one name the first stored is found; packs are known by name.
- ConfigSync: the digest is the document itself up to row order, as if the hash had no collisions; carried rows are appended in name order.
- ConfigSync: one writer; the copy changes only by this instance's pushes.
- PackMerge: parsing, linting, rendering, estimates and the archive are not modelled; why a pack cannot be merged is given. Column numbers are read with ASCII digits.
- PackYaml.ParseText: a bare boolean, null or number is kept as its text, marked as such, and so never equal to a string; digits are ASCII.
- StanzaMatch: names with character classes, counted or lazy repeats, look-around, flags or back-references are not read; the sample directory is taken to be the same before and after; what the engine does with the files found, and how it settles several stanzas for one file, is not modelled.
- PackDoc.TextIsReadBack: the writer is this model's own; the source writes no line of pack.yaml but the name.
- Renaming also rewrites stoker-builder.json and the archive in the shared bucket; neither is modelled.
- Drivers, routes, authentication, secrets, telemetry, dataset handling, pack upload, preview rendering, metric patterns and the user interface: they talk to other systems or libraries, and keep no state that the parts modelled here depend on.
- Backfill plans, slices and the builders of worker commands: each is a formula of one request's fields, with no later step that relies on it.
