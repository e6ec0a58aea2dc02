# A verified model of gpuc's GPU dispatch

gpuc queues jobs on hosts with GPUs. Each host runs one dispatcher, which hands
out cards pass by pass: a job that fits is started, one that does not holds the
cards it is waiting for, and jobs that said they may be stopped are stopped when
that starts something better. This project models that logic, and the smaller
protocols around it, and proves what the program's documentation promises of it.

- **The dispatch rule** (`Lists`, `Preempt`, `Rule`, `RuleTheorems`, `Choices`, `Pass`).
  `Rule` is the rule as a function of what a pass has left, one step per queued
  job; `Pass` is the program, a pool consumed in place that reads the shared
  cards late, proved to come to the same decisions. The theorems are about every
  pool and queue: disjoint assignments, accounting, strict order, work
  conservation, covered jobs left alone, all-or-nothing preemption. `Choices`
  says for each decision exactly when it is taken, with which cards and what it
  leaves behind, from nothing but what nobody holds at that turn.
- **Progress** (`Livelock`, `Turns`). On a host without shared cards, a job whose
  cards are free or on their way back stays covered through any run of passes and
  card movements, nobody behind it is given a card, and it starts at the latest
  in the first pass after its cards have landed.
- **The projection** (`Simulation`, `Rounds`, `Owing`, `Countdown`, `History`,
  `Schedule`, `Replay`, `Turning`, `Projecting`, `Project`). `project` replays the rule in
  simulated time with stops and restarts. It terminates: reading the queue as a binary
  number with the most important job as the top bit, every stop is paid for by
  the start, at the same clock, of a job strictly ahead of what it stopped. The
  schedule it stands for is stated in full: every round is the rule's over the
  cards then free, who is on which card from when, and that each stint lasts to
  its job's estimated end or to the stop that cut it.
- **The dispatcher** (`Machine`, `Ledger`, `Quiet`, `Bookkeeping`, `Protocol`,
  `Passes`, `Dispatcher`, `Startup`). A class whose methods are the passes. Between any two
  of its reads and writes anything may happen on the machine: runners claim,
  queue their job again, end and die, users submit, cancel, preempt and set
  priorities, states become unreadable. A ghost log holds every step; each pass
  is described by the moments of that log at which it read what, and the safety
  theorem is about every state of every such run. `Protocol` is about the
  compare-and-sets all of them go through: an attempt is claimed once, a cancel
  is final, and a stop is granted only where somebody else gets the cards.
- **In service** (`Service`, `Stopping`, `Queueing`). The passes of the dispatcher
  class over a quiet host are such a run of passes and card movements as `Turns`
  is about: every card free or on its way back is so in the next pass, unless it
  was given out, and the jobs ahead of one in the queue are those the pass before
  has neither started nor failed. So no livelock holds of the dispatcher itself,
  from the pass that asks a set of jobs to stop to the launch of the job they
  were stopped for.
- **Where it does not hold** (`Clearance`, `Still`, `Races`). When a launch is
  clear of every claim, and runs in which a promise is not kept.
- **Around it**: when an ephemeral host drains itself (`Idle`), the takeover of a
  queue between machines (`Owner`), placing job ids on hosts by asking them
  (`Locate`), accounting for every pod bought (`Provision`), deleting a work
  directory around the paths to keep (`Cleanup`), and naming cards by index or
  UUID (`Resolve`).

Where the code does not quite do what its documentation says, the model follows
the code, gives an input that shows it, and proves the exact condition:

- `resolve` returns its own result unchanged exactly when no card in it has an
  all-digit UUID that is not its own index (`Resolve.DigitUuidIsLost`,
  `Resolve.ResolvesToItself`).
- With no owned list it owns every unshared card, so that owned and shared are
  the whole table, exactly when each of those with an all-digit UUID has the
  index another of them has for its UUID, or its own
  (`Resolve.OwnedAndSharedAreTheTable`); then it owns no other card and nothing is
  missing (`Resolve.OwnsExactlyTheRest`). It owns them in the order of the table
  exactly when each is listed once and none has an all-digit UUID that is not its
  own index (`Resolve.OwnsTheRest`): two cards with each other's index for a UUID
  are both owned, in the other order (`Resolve.SwappedUuidsAreOwned`).
- A runner of an earlier dispatcher that has written its last state, or whose
  state is unreadable, when the startup scan reads its job is alive and not
  counted; its card can go to a new runner (`Races.MissedRunnerShares`). Every
  theorem about cards under two runners is about all runners but those, and there
  are none exactly when no live runner is then uncounted; if every live runner
  that wrote its last state is counted and nothing was unreadable, no two runners
  share a card or a job at any moment (`Startup.Run`).
- A launch is clear of the claims that stood while the states were read again for
  it, and not of every claim on disk when it is made: one that came since is
  missed (`Races.LateClaimIsMissed`). A card launched on is claimed exactly when
  such a claim came (`Clearance.ClearUnlessLate`). Alone on the machine that takes
  a state becoming readable again, and the claim is then a dead runner's
  (`Clearance.AloneOnlyMends`, `Clearance.AloneClaimsAreDead`).
- A job asked to stop counts as on its way out until it is reaped, unless its
  state cannot be read (`Quiet.LeavingUnlessGarbled`, both directions). In a pass
  that finds it so, the job it was stopped for can be short of cover, and a filler
  can be started on the card held for it (`Races.GarbledStopIsForgotten`).
- An owner that renews its record within every `STALE_S` can still lose its queue
  to a claimer that is held up between reading the record and reading its clock
  (`Owner.HeldUpClaimerTakesOver`). With no call slower than `slack`, an owner is
  safe exactly if `slack` is less than `STALE_S` and it renews within `STALE_S`
  less the slack, or within the second between two looks where that is longer
  (`Owner.SafeExactlyWithinTheWindow`).
- A kept path at or above the directory being cleaned protects nothing in it
  (`Cleanup.OuterKeepIsIgnored`).

`dafny verify dfyconfig.toml` checks the project.

## Model

| member | source | states |
|---|---|---|
| Preempt.CoverIsExact | gpuc/host/plan.py:95-124 | for a positive gap the set to stop is non-empty exactly when the eligible candidates free the gap in total; it is a prefix of the eligible ones by descending (priority, started), dropping its last falls short, and each sorts behind the waiting job and frees a card it may use |
| Preempt.DescendingSorts | gpuc/host/plan.py:117-117 | the candidates are considered by priority, the least important first, and then by start, the last first; each once |
| Preempt.DescendingStable | gpuc/host/plan.py:117-117 | and keeps equal candidates in their given order |
| Preempt.CoverNoDup | gpuc/host/plan.py:95-124 | no candidate is chosen twice |
| Preempt.CoverIs | gpuc/host/plan.py:95-124 | the same in what is known of each job: those that may be stopped have a greater (priority, id) and a card of a kind the waiting job may use; they are taken by priority and then by start, the last first, until their owned cards, and for a borrower their shared ones, cover the gap; and nobody is stopped where all of them would not |
| Preempt.EligibleInOrder | gpuc/host/plan.py:117-120 | and they keep their order while those that may not be stopped are left out |
| Preempt.EnoughToStart | gpuc/host/plan.py:95-124 | the accumulating loop computes that set |
| RuleTheorems.AssignedAreDisjoint | gpuc/host/plan.py:225-296 | no card is assigned to two jobs in a pass |
| RuleTheorems.AssignedIsSafe | gpuc/host/plan.py:225-296 | an assignment is exactly as many distinct cards as asked for, all free at the start of the pass, and all owned for a job that does not borrow |
| RuleTheorems.HoldsAddUp | gpuc/host/plan.py:270-295 | what a waiting job keeps and its gap add up to what it asked for; its two counts are the numbers of owned and of shared cards it keeps; and no shared card is kept for a job that does not borrow |
| RuleTheorems.SteppedOverIsTheirs | gpuc/host/plan.py:264-269 | only a borrower is stepped over, short by at least one card and at most those somebody else is on |
| RuleTheorems.StrictOrder | gpuc/host/plan.py:239-296 | a job that does not fill and is assigned cards behind a waiting one borrows, gets shared cards only, and the waiting one does not borrow |
| RuleTheorems.WorkConserving | gpuc/host/plan.py:250-296 | for every job left waiting or stepped over, the free cards it may use that nobody holds at the end of the pass are fewer than it asked for |
| RuleTheorems.HoldsAreNotMoved | gpuc/host/plan.py:270-295 | a card once held stays held for that job to the end of the pass |
| RuleTheorems.CoveredKeepsItsCards | gpuc/host/plan.py:270-324 | a card held for a job with no gap, or with a set to stop, is given to no later job, fillers included |
| RuleTheorems.OnlyTheFirstGapPreempts | gpuc/host/plan.py:275-285 | only the first job with a gap has a set to stop |
| RuleTheorems.HeldForIsExact | gpuc/host/plan.py:306-324 | `held_for` names each holder of a filler's cards once and nobody else, each waiting ahead and not covered |
| Choices.DecidedExactly | gpuc/host/plan.py:239-296 | at every turn of a pass, from the cards unheld then, on their way and in other hands: a job fails exactly if the host is too small, with what it is told; is assigned cards exactly if enough are unheld, or it fills, would have a gap and enough are in no covered job's hands; is stepped over exactly if it would need a card somebody else is on, short by that; and waits otherwise, with a gap of what is missing even with the cards on their way |
| Choices.BorrowsOnlyTheShortfall | gpuc/host/plan.py:250-262 | an assigned job is given as many shared cards as it is short of owned ones open to it, and no more; and of each kind the first of its list, for a filler those nobody holds before those somebody does |
| Choices.LeftBehind | gpuc/host/plan.py:263-295 | what each decision leaves for the next job: an assignment takes its cards off both lists; a wait holds exactly its share of the free cards and of those on their way, covers the job exactly if it has no gap or a set to stop, and is the first with a gap exactly if none was before; nothing else changes anything |
| Choices.OwnedComeFirst | gpuc/host/plan.py:270-276 | no shared card on its way back is kept while an unheld owned one is left out |
| Pass.Pool.Borrowable | gpuc/host/plan.py:155-159 | the shared cards are read on first use and kept |
| Pass.Pool.Take | gpuc/host/plan.py:299-303 | the cards leave both lists and nothing else changes |
| Pass.Pool.TryFill | gpuc/host/plan.py:306-324 | a filler gets the best cards not held for a covered job, unheld before held and owned before shared, or nothing |
| Pass.Pool.DecideOne | gpuc/host/plan.py:239-295 | one turn of the loop decides, and leaves the pool and the holds, as the rule has it |
| Pass.Pool.Plan | gpuc/host/plan.py:225-296 | the loop over the requests comes to the rule's decisions, one per request |
| Pass.LazyIsEager | gpuc/host/plan.py:155-159 | the decisions are those of a pool whose shared cards were read before the pass began |
| Pass.ReadsAtMostOnce | gpuc/host/plan.py:250-262 | the shared cards are read at most once, and exactly when some borrower the host is big enough for was short of unheld owned cards |
| Livelock.NoGapWhenCovered | gpuc/host/plan.py:225-296 | without shared cards, if free plus coming cards cover what the queue up to a job asks for, everybody in that stretch is assigned, waits without a gap, or is too wide for the host |
| Livelock.GapFreeExactlyWhenCovered | gpuc/host/plan.py:225-296 | and nobody in that stretch has a gap only then |
| Livelock.NobodyPasses | gpuc/host/plan.py:225-296 | and while that job waits nobody behind it is given a card |
| Livelock.StopsCoverTheGap | gpuc/host/dispatcher.py:1181-1262 | counting the owned cards of the set to stop as on their way, the queue up to the first job with a gap is covered |
| Turns.NoLivelock | gpuc/host/dispatcher.py:1181-1262 | over any run of passes in which no card that was free or on its way back is lost but to a launch, a covered job stays covered until it leaves the queue, and no pass gives a card to anybody behind it |
| Turns.StartsOnceLanded | gpuc/host/dispatcher.py:1080-1130 | it leaves by being started, at the latest in the first pass with nothing left on its way |
| Turns.PreemptCovers | gpuc/host/dispatcher.py:1181-1262 | with as many owned cards on their way as the rule counted on, the job they were freed for is covered |
| Turns.NobodyBehindIsServed | gpuc/host/plan.py:225-296 | one pass of that run |
| Quiet.QuietStep | gpuc/host/dispatcher.py:957-1178 | alone on the machine with every runner counted and every state readable, each step keeps it so: entries share no card, a claim is that of its entry or of the dead runner being settled, and no job falls behind its entry |
| Quiet.LeavingUnlessGarbled | gpuc/host/dispatcher.py:1080-1099 | whatever happens next, a job on its way out is found so afterwards exactly unless its state has just become unreadable |
| Quiet.LeavingLasts | gpuc/host/dispatcher.py:1080-1099 | so it is found so at every moment until its entry is dropped |
| Service.PassesSettle | gpuc/host/dispatcher.py:1057-1130 | over a quiet stretch, every card a pass left free or on its way back is free or on its way back in the next |
| Service.CoveredWhileAhead | gpuc/host/dispatcher.py:1101-1262 | with the same jobs ahead, those each pass has left there, the passes of the dispatcher find a covered job covered until it is launched, and start nobody behind it on a card |
| Service.OnlySpawnsBlock | gpuc/host/dispatcher.py:1132-1178 | on a quiet host a launch the rule decides is given up only for a failed spawn |
| Queueing.AheadIsWhatWasLeft | gpuc/host/dispatcher.py:1028-1130 | with nobody cancelled, submitted, moved or queued again at or ahead of a job between two plans, the queue up to it is what the pass before has left of it: everybody it neither started nor failed |
| Queueing.ServedInOrder | gpuc/host/dispatcher.py:1101-1262 | so with nobody disturbed at or ahead of it from without, from a pass that finds a job covered every pass that still finds it queued finds it covered, and every one before starts nobody behind it on a card |
| Service.StartedOnceLanded | gpuc/host/dispatcher.py:1101-1178 | and it is launched at the latest by the first pass that finds nothing on its way back, unless its spawn fails |
| Stopping.StopsCover | gpuc/host/dispatcher.py:1181-1262 | the cards of the entries asked to stop cover the first job with a gap |
| Stopping.CoveredInTheNextPass | gpuc/host/dispatcher.py:1181-1262 | once the whole set chosen for a job has been asked to stop, the next pass finds it covered |
| Owing.DebtArises | gpuc/host/plan.py:449-459 | a simulated round that stops jobs leaves the job they were stopped for able to start on the cards then free, with only jobs that can never run ahead of it |
| Owing.OwedIsPaid | gpuc/host/plan.py:406-448 | and the very next round starts it |
| Countdown.WeightDrops | gpuc/host/plan.py:406-469 | giving up one job for any number of jobs behind it makes the queue a smaller binary number |
| Countdown.NextReleaseIs | gpuc/host/plan.py:460-463 | the next clock is the earliest release after the current one |
| Project.Project | gpuc/host/plan.py:364-469 | a running job is told to give way exactly if some queued job asking for cards is ahead of it and may be given one of its cards, and is told the first such; it terminates for every queue, card set and set of running jobs; its rounds are the rule's, one after the other: whoever is over is no candidate, everybody assigned cards is started, then the chosen jobs are stopped at the same clock, or the clock goes to the next release, and it ends when the queue is empty or nothing is left to come free; every queued job gets a start time or a reason and one that may not be stopped exactly one, the reasons being those of `UnknownReasons`; each start time is that of a first launch on exactly the cards asked for; the schedule is the cards as found and then those of each launch, every stint lasts to its job's estimated end, or release, unless a stop of that job cut it short there and then, every stop cuts all its job's stints under way, and no card is ever under two jobs; the clock never goes back, and every stop was of a job that allows it, for a job ahead that started there and then |
| Project.StartAssigned | gpuc/host/plan.py:425-448 | the loop over a round's assignments starts each on its cards |
| Project.StopChosen | gpuc/host/plan.py:451-458 | the loop over the set to stop stops each and puts it back in the queue |
| Project.UnknownReasons | gpuc/host/plan.py:472-500 | each job without a start time is told its own reason, and all but the first that waits are told who that is |
| Turning.RoundSees | gpuc/host/plan.py:406-428 | every turn the rule has before it exactly the cards of each kind whose holder is through, every stoppable job that has not ended, the host's sizes, and nothing held or on its way |
| Turning.StartedIs | gpuc/host/plan.py:425-448 | a started job keeps its first start, has its cards to its estimated end, leaves the queue, and if it fills may be stopped from then on, for those cards counted by kind, as started at that clock |
| Turning.StoppedIs | gpuc/host/plan.py:451-458 | a stopped job's cards are free at that clock, it may be stopped no more, and its request is in the queue again |
| Schedule.StartSchedule | gpuc/host/plan.py:425-448 | starting a job adds its stints with the ends its estimate gives, and disturbs no other |
| Schedule.StopSchedule | gpuc/host/plan.py:451-458 | stopping one cuts exactly its own stints, at that clock |
| Projecting.YieldsToIsEligible | gpuc/host/plan.py:353-361 | a running job is told the first queued job that automatic preemption would consider it for, and nobody exactly when there is none |
| Projecting.GivesWayIs | gpuc/host/plan.py:353-361 | over all running jobs: exactly those that give way to somebody have an entry, and it names the first queued job asking for cards that may have them stopped |
| Machine.EventKeepsNames | gpuc/host/queue.py:89-112 | whatever runners and users do, a runner holds a job exactly when that job's state names it, with its cards and attempt |
| Machine.EventIsCalm | gpuc/host/queue.py:89-112 | with no other dispatcher, a job that no runner can still claim keeps its attempt: it may end, or be queued again by the runner that holds it, and nothing else |
| Ledger.StepKeeps | gpuc/host/dispatcher.py:957-1178 | each step of the dispatcher or the machine keeps every live runner but the strays counted on its own cards, and none of them sharing a card or a job |
| Ledger.NoCardTwice | gpuc/host/dispatcher.py:957-1178 | so no card and no job is under two such runners at any moment of any run |
| Clearance.ClearUnlessLate | gpuc/host/dispatcher.py:1132-1166 | with or without another dispatcher, a launch is on a card some claim names exactly when that claim came on disk, by a runner claiming its job or a state becoming readable, after the claims began to be read again for it |
| Clearance.AloneOnlyMends | gpuc/host/dispatcher.py:1132-1166 | alone on the machine such a claim came by its state becoming readable |
| Clearance.AloneClaimsAreDead | gpuc/host/dispatcher.py:1132-1166 | and if every live runner is counted it is a dead runner's |
| Races.LateClaimIsMissed | gpuc/host/dispatcher.py:1132-1166 | a launch on a card another dispatcher's runner has claimed since its state was read again, so that both are on it |
| Startup.Run | gpuc/host/dispatcher.py:689-719 | from the start over any number of passes: no card or job under two live runners but those the scan did not find, and under no two at all if every live runner that had written its last state was counted and no state was unreadable |
| Startup.RunQuietly | gpuc/host/dispatcher.py:1552-1575 | on a host with nothing running and every state readable, the passes are in service as the progress results ask for |
| Races.MissedRunnerShares | gpuc/host/dispatcher.py:689-719 | a dispatcher whose scan reads a job just after its runner queued it again starts it anew on the card that runner is still on |
| Races.GarbledStopIsForgotten | gpuc/host/dispatcher.py:1080-1099 | a dispatcher that cannot read the state of a job asked to stop starts a filler on the card held for the job it was stopped for |
| Races.GarbledStopLosesItsCard | gpuc/host/dispatcher.py:1080-1130 | every pass from that moment does, unless the spawn fails, and with the state readable none starts anybody |
| Dispatching.Dispatcher.AdoptOrphans | gpuc/host/dispatcher.py:689-719 | on a fresh start alone, from claimed runners that share nothing, the uncounted runners are known exactly, and each has written its last state, or had its state unreadable during the scan; and a scan that reads no job as running leaves everything alone |
| Dispatching.Dispatcher.AdoptOrphan | gpuc/host/dispatcher.py:701-719 | the same for one job: its live runners are counted or past it, or it was unreadable; one read as running whose runner is then alive is adopted as its state has it, and one not read as running is left alone; whatever was read, afterwards it is counted or does not read as running |
| Dispatching.Dispatcher.MarkRunnerDied | gpuc/host/dispatcher.py:747-791 | written only over the status the verdict was reached on, and, alone on the machine, only on the same attempt and never over a live runner |
| Dispatching.Dispatcher.ReapOne | gpuc/host/dispatcher.py:794-801 | one entry: kept if its runner is alive, else dropped and settled, the others untouched, and nothing done before it is dropped |
| Dispatching.Dispatcher.Reap | gpuc/host/dispatcher.py:794-801 | every entry left was found alive in this pass |
| Dispatching.Dispatcher.Settle | gpuc/host/dispatcher.py:803-841 | the only thing done is to adopt another live runner the state names, or to fail the job on what was seen, and never a queued attempt after the one the dead runner was started for; a job seen claimed ends up adopted or not claimed, and one seen queued for that attempt or an earlier one does not read as queued any more; another runner is left only if it was found dead |
| Dispatching.Dispatcher.SettleClaim | gpuc/host/dispatcher.py:834-841 | a job still claimed is adopted if another runner its state names was found alive, and otherwise does not read as running any more |
| Dispatching.Dispatcher.ClaimedGpus | gpuc/host/dispatcher.py:975-986 | every card of a claim that stood during the whole reading, and none that no claim named at some moment of it |
| Dispatching.Dispatcher.BusyGpus | gpuc/host/dispatcher.py:957-973 | those and the cards of every entry |
| Dispatching.Dispatcher.FailQueued | gpuc/host/dispatcher.py:662-679 | ends the job exactly if it is still queued, after which it does not read as queued and the listing has forgotten it and nothing else |
| Dispatching.Dispatcher.ListQueued | gpuc/host/queue.py:77-86 | by priority and then by id, each job once: every job queued during the whole reading, and none that was not at some moment of it |
| Dispatching.Dispatcher.Requests | gpuc/host/dispatcher.py:1028-1055 | the queue in dispatch order, each job once with what its spec asks for, none counted as running, each found queued; and every job queued all the while and not counted is in it; only jobs without a readable spec are failed |
| Dispatching.Dispatcher.Coming | gpuc/host/dispatcher.py:1057-1099 | the visible cards of exactly these entries: none that was not found on its way out at some moment, and every one that was so all the while |
| Dispatching.Dispatcher.AutoPreemptable | gpuc/host/dispatcher.py:1264-1293 | counted jobs, each once, found running, stoppable and not stopping, with their priority, start and cards of each kind; and every counted job that was so all the while |
| Dispatching.Dispatcher.MakePool | gpuc/host/dispatcher.py:988-1078 | exactly the owned cards in no entry and no claim and the shared ones on offer are free; cards on their way back, candidates and host sizes are as above |
| Passes.OfferedIs | gpuc/host/dispatcher.py:992-1026 | on offer are the shared cards in no entry, no claim and nobody's use, and the count of the others is of those in no entry or claim that somebody else is on; a reading once taken is kept, less the cards taken since |
| Passes.StateForIs | gpuc/host/dispatcher.py:988-1026 | the rule begins with every owned card in no entry and no claim, those on offer, and nothing held |
| Dispatching.Dispatcher.Decided | gpuc/host/dispatcher.py:1101-1130 | the decisions are the rule's over those cards; a reading of the shared cards is kept for the pass exactly if one was taken, and never replaced |
| Dispatching.Dispatcher.Launch | gpuc/host/dispatcher.py:1132-1178 | a runner is started and counted on exactly these cards, unless one of them was named by a claim while they were read again or the spawn failed |
| Dispatching.Dispatcher.LaunchReady | gpuc/host/dispatcher.py:1101-1130 | by the plan of this pass's own queue and cards, every job the rule assigns cards is counted on them, or was given up for a claim seen on one of its cards or a spawn that failed; nothing else is started, and earlier entries are untouched; and after the plan exactly those are failed that the rule says can never run here, unless nvidia-smi is being waited for, or whose spawn failed, and each of them was found not queued since; nothing happens while draining |
| Dispatching.Dispatcher.AskAll | gpuc/host/dispatcher.py:1254-1320 | the jobs of the set are asked to stop in order up to the first refusal |
| Dispatching.Dispatcher.PreemptForWaiting | gpuc/host/dispatcher.py:1181-1262 | by the plan of this pass's own queue, cards and candidates, the set decided for the first job with a gap is asked to stop in order, all of it unless one is refused, and nobody else; with no such job, or no candidates, nobody is; each is a candidate that sorts strictly behind the job it is stopped for; and nobody is failed but for an unreadable spec |
| Dispatching.Dispatcher.RunOnce | gpuc/host/dispatcher.py:1552-1575 | a pass reaps, then launches, then asks for stops, each as above and on what the pass itself read |
| Dispatching.Dispatcher.Serve | gpuc/host/dispatcher.py:1552-1575 | any number of passes one after the other, each as above: at no moment a card or a job under two live runners but strays, and every launch clear of entries and of claims that stood while they were read again |
| Bookkeeping.AllClear | gpuc/host/dispatcher.py:1101-1178 | composing the rule's disjointness with what a pass counts as taken: what is to be started is clear of every entry and of each other |
| Bookkeeping.WantedAreBehind | gpuc/host/dispatcher.py:1181-1262 | every job to be stopped is a candidate strictly behind the first job with a gap |
| Bookkeeping.WantedIs | gpuc/host/dispatcher.py:1246-1262 | the set to stop is that of the first job with a gap, whole, and empty only if there is none or its set is |
| Protocol.ClaimIs | gpuc/host/queue.py:89-112 | a runner's claim takes exactly a queued job at the attempt it was started for, and writes its cards and itself; any other claim writes nothing |
| Protocol.ClaimedOnce | gpuc/host/queue.py:89-112 | after any run of events, other dispatchers' runners among them, a claimed attempt is still under the runner that claimed it, on its cards, or over, and no runner of it or of an earlier one can claim the job |
| Protocol.RequeueIs | gpuc/host/queue.py:258-308 | a preempted job comes back at the next attempt, on no cards, with its priority and spec; one no longer to be preempted does not |
| Protocol.StopIs | gpuc/host/queue.py:152-248 | a stop is granted exactly for a running job that wants cards and is not being cancelled, where a queued job wanting cards is ahead of where it would come back; it changes the intent and the priority given, and a refusal nothing |
| Protocol.StoppedIsBehind | gpuc/host/queue.py:152-248 | so once its runner has queued it again somebody wanting cards is ahead of it |
| Protocol.CancelIsFinal | gpuc/host/queue.py:115-140 | a cancelled job is never queued again and never gets to another attempt, whatever happens |
| Protocol.HowItLeaves | gpuc/host/dispatcher.py:1080-1099 | a runner's cards count as on their way from the moment it is stopped, cancelled, finished or queued again, and not while it has yet to claim its job or nobody asked |
| Protocol.StoppableIs | gpuc/host/dispatcher.py:1264-1283 | a job may be chosen to stop exactly while it runs, its spec allows it and it is not on its way out |
| Idle.DrainsExactlyWhenIdle | gpuc/host/dispatcher.py:1323-1340 | a drain starts at a look exactly when it and every other look that reached the check found no runner and no queued job over at least the idle time, whatever the configuration did and however many self-terminates failed |
| Idle.NoDrainUnlessIdle | gpuc/host/dispatcher.py:1323-1340 | without failures on a host that stays ephemeral, every pass over at least the idle time found nothing |
| Idle.CheckedExactly | gpuc/host/dispatcher.py:1324-1329 | a look reaches the check exactly if the host is ephemeral and no self-terminate failed in the ten minutes before |
| Idle.DrainsOnlyWhenEphemeral | gpuc/host/dispatcher.py:1323-1340 | so a drain needs an ephemeral host with nothing running or queued, ten minutes after the last failure |
| Idle.Watch.MaybeTerminate | gpuc/host/dispatcher.py:1323-1340 | the method drains at those looks |
| Idle.Watch.FailedToTerminate | gpuc/host/dispatcher.py:1363-1370 | a failed self-terminate holds the check off for ten minutes and leaves the idle clock alone |
| Owner.Claimer.Claim | gpuc/host/owner.py:73-109 | the record is written only if it names nobody else, was already `LONG_GONE_S` old, was withdrawn, or was seen unchanged for `STALE_S` on the claimer's own clock; in the first two cases at the first look; it ends busy, naming the instance last seen, only after the whole wait, having seen the record change; and the outcome is that of the timed protocol as a function of the surroundings |
| Owner.Claimer.Watch | gpuc/host/owner.py:91-104 | the timed loop of it terminates with one of those outcomes |
| Owner.RenewingOwnerIsSafe | gpuc/host/owner.py:81-104 | against a record renewed within the window that the slack leaves, the claimer ends busy exactly unless the record looked long gone to begin with |
| Owner.HeldUpClaimerTakesOver | gpuc/host/owner.py:91-104 | for every longer period and every slack, an owner renewing within that period that is taken over by a claimer within that slack |
| Owner.SafeExactlyWithinTheWindow | gpuc/host/owner.py:81-104 | so an owner is safe exactly if the slack is less than `STALE_S` and it renews within the window |
| Owner.Renew | gpuc/host/owner.py:112-117 | never changes the instance the record names, whatever it has become since it was read |
| Locate.MissingIsExact | gpuc/control/actions.py:928-1008 | a job is called missing exactly when nobody asked lists it, every registered host answered a question naming it without listing it or is gone, and the host the index names for it, if any, is registered and answered without it |
| Locate.AdmittedIsPlaced | gpuc/control/actions.py:978-1008 | a job some host lists is placed on such a host, and any other placement is the index's own host, which did not answer or is not registered |
| Locate.PlacedExactly | gpuc/control/actions.py:978-1008 | where a job is placed, by the questions alone: the first host to list it; else its own registered host exactly if that did not answer, with what came of asking it; else nowhere as long as another host could not be asked; else the index's unregistered host if there is one; and otherwise it is missing |
| Locate.PlacedFromTheIndex | gpuc/control/actions.py:878-897 | which jobs are placed from the index alone, and with which host each of the others is asked about |
| Locate.Survey.Hear | gpuc/control/actions.py:955-962 | the dictionaries are the first word, the last word and the first admission over all questions put |
| Locate.Survey.AskEach | gpuc/control/actions.py:943-962 | each host of the questions is asked once, in order |
| Locate.ByNamed | gpuc/control/actions.py:964-968 | each registered host the index names is asked about exactly the jobs it names it for |
| Locate.Everyone | gpuc/control/actions.py:969-977 | each host that has not failed to answer is asked about exactly the unfound jobs it was not asked about |
| Locate.AskAround | gpuc/control/actions.py:928-1008 | the questions are those of the two rounds with the answers the hosts gave; every id is placed once, as `PlacedExactly` has it of those questions, no host is asked twice in a round, and a job is missing only if every registered host is ruled out for it |
| Locate.LocateMany | gpuc/control/actions.py:837-897 | every id asked about is placed; one the local index places on a registered host, or on an unreadable one, is not asked about; the others are placed by two such rounds |
| Provision.WaitingOnlySpares | gpuc/control/provision.py:120-138 | waiting changes what a failure costs only for a provider or transport failure that would cost the offer |
| Provision.ThreeKinds | gpuc/control/provision.py:120-138 | which failures cost the offer, which end the attempt as nothing another offer could fix, which are none of its business, and which are waited out |
| Provision.StopsWhereItMust | gpuc/control/provision.py:244-280 | after a pod or a create that failed in one of the last two ways nothing more is created, and the attempt fails as not worth another offer, or propagates |
| Provision.Attempt.Abandon | gpuc/control/provision.py:432-456 | the pod is confirmed gone or on the bill |
| Provision.Attempt.Sweep | gpuc/control/provision.py:459-496 | every pod found under the name is ended or billed, and an unsettled sweep has billed one of them or the name |
| Provision.Attempt.TryOffer | gpuc/control/provision.py:302-417 | on the way out of every failure all pods are closed, and a failure the next offer could make up for leaves no create unsettled |
| Provision.Attempt.Provision | gpuc/control/provision.py:210-280 | the trace is what was asked of the provider, turn by turn, with what it answered; at every exit each pod it created, or listed under a failed create's name, is the host returned, confirmed gone or in `billing`; at each create all earlier ones were, the last clock reading was before the deadline, and no failed create was unsettled; it goes on to the next offer after failures that cost only the offer and stops at the first other, failing as not worth another offer only for one no offer could fix or a create left unsettled |
| Cleanup.Disk.RemoveAround | gpuc/host/cleanup.py:540-558 | for every finite tree and keep set, what is left under the directory is exactly what is at or below a kept path not itself at or above the directory, and the directories and symlinks above one |
| Cleanup.Disk.RemoveChild | gpuc/host/cleanup.py:546-558 | the same for the branch under one child |
| Cleanup.KeepsExactly | gpuc/host/cleanup.py:540-545 | for kept paths strictly inside, node by node |
| Cleanup.OuterKeepIsIgnored | gpuc/host/cleanup.py:546-549 | a path kept at or above the directory makes no difference |
| Cleanup.KeepsWhatItShould | gpuc/host/cleanup.py:540-558 | and for any kept paths, node by node |
| Cleanup.LeavesATree | gpuc/host/cleanup.py:540-558 | no node is left without its directory, and doing it again changes nothing |
| Resolve.ResolvedIsCanonical | gpuc/host/gpus.py:153-200 | owned and shared are duplicate-free, disjoint, present, and exactly the cards named; and every entry is counted in exactly one of the five lists |
| Resolve.ResolvesToItself | gpuc/host/gpus.py:153-200 | resolving the result again returns it with nothing missing or duplicated, exactly when every card in it names itself |
| Resolve.DigitUuidIsLost | gpuc/host/gpus.py:168-174 | a table for which it does not |
| Resolve.OwnsTheRest | gpuc/host/gpus.py:181-191 | with no owned list, owned is the unshared cards in table order exactly when each is listed once and names itself |
| Resolve.UnnamedInOrder | gpuc/host/gpus.py:181-183 | the unshared cards are listed in table order |
| Resolve.OwnedAndSharedAreTheTable | gpuc/host/gpus.py:181-200 | with no owned list, every unshared card is owned, and owned and shared together are exactly the table, exactly when each of those cards with an all-digit UUID is named by an all-digit UUID among them |
| Resolve.OwnsExactlyTheRest | gpuc/host/gpus.py:181-191 | exactly then the host owns the unshared cards and no other, and nothing is missing |
| Resolve.SwappedUuidsAreOwned | gpuc/host/gpus.py:181-191 | a table on which it owns them all in another order |
| Resolve.IndexNamesItsCard | gpuc/host/gpus.py:168-174 | the spelling of an index names the last row with that index |
| Resolve.LookupIsPresent | gpuc/host/gpus.py:168-174 | no entry names a card the table does not have |
| Resolve.SpelledReadsBack | gpuc/host/gpus.py:168-174 | an index as spelled is all digits and reads back as itself |
| Resolve.Resolve | gpuc/host/gpus.py:153-200 | the loops compute that result |

## Left out

- ssh, rsync, git, S3, Hugging Face and RunPod calls, subprocess spawning and systemd scopes: what they return is a parameter.
- Command line, status rendering, JSON documents, dashboard, Snakemake plugin and demo scripts.
- The dispatcher's lock and signals: one dispatcher at a time is the flag `alone`, and what is proved without it is said separately.
- Re-queueing after a host restart, and standing down when another machine has taken the queue over: both only take jobs away from this dispatcher.
- Killing what is left of a dead runner's job, escalating stops, secrets, reclaiming disk space, and retention: they move no card.
- Runners an earlier dispatcher had spawned and that had not claimed their job when this one started: the theorems that need `alone` start without any.
- Starting a runner and entering it in `running` is one step, and so is any single read or write of a job's state.
- Cards are abstract values in the dispatch modules and strings in `Resolve`; job ids are ranks, since only their order matters; clocks and estimates are reals; priorities are any integers; reasons are tags.
- Turns.NoLivelock: assumes that nothing is cancelled, that nothing arrives ahead of the job watched, that no card drops off nvidia-smi (the number present is constant), that the host has no shared cards, and that no queued job asks to borrow.
- Queueing.ServedInOrder: over a quiet stretch only: no other dispatcher, every state readable, every live runner counted; the configuration and nvidia-smi readings stay the same from pass to pass, the host lends nothing and is not draining, no queued job asks to borrow, and nobody at or ahead of the job is cancelled, submitted, moved to another priority or queued again. `Races` shows what one unreadable state does.
- Stopping.CoveredInTheNextPass: takes it as given that the jobs queued ahead are the same in the next pass.
- Dispatching.Dispatcher.Launch: clear of the claims that stood while they were read again, not of every claim on disk as it is made; `Clearance.ClearUnlessLate` is the exact difference.
- Project.Project: assumes each card is listed once, the queue is in order, and every running job that may be stopped is alone on listed cards that all come free together; a running job on an unlisted card is not modelled.
- Owner.Claimer.Claim: the record it watches is a function of the claimer's clock; two machines claiming at the same instant are not modelled.
- Locate.LocateMany: without `--host`; `_on_named_host` would add one small case analysis.
- Provision.Attempt.Provision: the waits for an endpoint and for ssh, the probe, the connect and the bootstrap are one outcome per pod, and an interrupt during a terminate is not modelled, only one during the sweep's listing.
- Resolve.Resolve: `str.isdigit` also accepts digits outside ASCII, which the model does not.
- Protocol.StopIs: without the refusal while the host is draining; a dispatcher that drains asks nobody (`PreemptForWaiting`).
- Cleanup.Disk.RemoveAround: the order of a directory listing is arbitrary, and failing deletions are not modelled.
- Disk measurement, the baseline scan, health checks, bootstrap and registry parsing: file system or library behaviour, or easy members.
