# Exa campaign engine: a verified model

This project models the Exa campaign engine, a crash-resumable and budgeted sourcing pipeline, and
proves what its documentation promises of it. A campaign compiles a brief into a plan of queries,
searches under a spend cap, folds what it finds into one record a person, filters it, judges it,
and writes the short list to a recruiter's workspace. Every durable write is one transaction; a
process may die between any two, and a later session resumes.

Run `dafny verify dfyconfig.toml` in this directory.

## How the model is laid out

- `Verdicts`, `Rejudge`, `Lifecycle`: a verdict, its bucket, how samples combine, and one store row
  with what each durable write does to it.
- `Campaign`, `CampaignInvariant`, `CampaignHistory`, `CampaignTheorems`, `CampaignWitnesses`: the
  campaign as a transition system. A step is one durable write, one decision of the process, a crash, or a
  recruiter's action; a run is any sequence of legal steps, so it covers any number of sessions,
  briefs, search results and verdicts. Passes of a session may run in any order there.
- `Session`: the passes of a resume as loops over a store object, in their own order.
  `SessionRules` says what each does to a person field by field, and `SessionRun` proves that such
  a resume is a run of the transition system.
- `Slate`: the report's filing and its coverage rows.
- `QueryStates`, `Plan`, `PlanTheorems`, `Compile`, `Recovery`, `Replanning`: the query plan. Rows
  are matched by key with multiplicity; the rank of a row among those of its key says which
  compiled query it answers. `Replanning` ties the plan to the campaign's transition system.
- `CostMeter`, `Request`, `SpendProtocol`: the meter as an object, one request's retry loop, and
  any number of requests interleaving on one meter, each attempt carrying what was truly billed.
- `Pacer`, `Governor`: the request pacer and the exhaustion governor.
- `KeyedFold`, `MergeRecords`, `Dedupe`, `Acquisition`: folding by key in general, the two folds
  built on it, and what they hand to the campaign.
- `Names`, `DoNotSave`, `Known`: name keys, the veto list, and the people other campaigns hold.
- `Experience`, `Grounding`, `Evidence`: the profile parser, what a page supports of a claim, and
  the budgeted evidence printer.

Loops that update state are methods proved equal to a specification function of their input; the
theorems are lemmas about those functions. A brief's deterministic checks, the judge, the text
normalizers, the clock and the network are parameters: every theorem holds for all of them. Where
the source iterates a Python set of name keys, the method picks keys in any order, and its contract
says what holds whichever comes first.

## Where the code and its promises differ

- `start_stage` makes two durable writes (shared/execution/runtime.py:93-128). A crash between them
  leaves a row started with no open attempt, which no reconcile converts and no pass judges. The
  comment at exa/orchestrator.py:169-175 says such a row cannot occur.
  `CampaignTheorems.EveryRowAccounted` gives the exact condition for everybody found, of which
  `NobodyLost` is the case of people kept; `AbandonedForever` is the consequence and
  `CampaignWitnesses.JudgmentCutHappens` a run.
- A cleared row on which a recruiter has acted is no longer picked up (exa/rejudge.py:188-190);
  that is another part of the same condition (`CampaignWitnesses.TouchedWhileCleared` is a run).
- A crash inside `_persist_candidate` before the snippet write leaves a row without a record, and
  the query's re-run finds the person already seen: the third part (`UnrecordedForever`,
  `PersistCutHappens`).
- exa/rejudge.py:19-26 promises that a slate verdict falls only to two rejects. After a crash
  between a re-judge's attempt and its verdict the pending pass judges the person on one fresh
  sample (`TwoRejectsUnlessHalved` is the exact condition, `OneRejectAfterCut` a run).
- A save that failed three times is never tried again: a resume lands a save if and only if its
  attempts were not used up before (`Session.ResumeLandsEverySave`, with `UsedUpNeverLands` one).
- exa/orchestrator.py:665-667 says the store refuses a replay of a save that did land. After a crash
  between the workspace write and its record it does not, and the person is written again
  (`CampaignTheorems.WritesAccounted` counts the writes exactly, `WrittenTwice` is a run).
- A stored gate rejection is counted under its gate and filed as rejected or already known as well
  (`Slate.GateRejectionsAreAlsoFiled`).
- A row that lost its payload is rebuilt from the first compiled query of its key
  (exa/runtime_bridge.py:604-608), so a title term's search comes back as the
  first term's (`Recovery.RebuiltText` says when, `FallbackRebuilt` for whole plans).
- exa/known.py:30-34 says an initial matches when exactly one person fits it. The code counts
  surnames, and for a candidate who is an initial it does not look at this campaign's own people
  (`Known.TwoOfOneSurnameMatch`).
- A page whose first unprinted fact overran the character budget prints the placeholder that says
  its text repeats an earlier page (`Evidence.DuplicatePlaceholderMeans` says when,
  `DuplicatePlaceholderUntrue` gives pages).
- The window check tests token boundaries inside a window already cut, so a title may stand inside
  a longer word at the window's edge (`Grounding.BesideIsClose` says exactly when,
  `CutTitleIsKept` gives a page).

## Model

| member | source | states |
|---|---|---|
| `Verdicts.LiveReplaySlateAgree` | exa/orchestrator.py:1520-1695 | for an unchanged brief, the bucket the live path returns is the short list exactly when a replay would write the person, and equals the bucket and the section the slate files the stored verdict under |
| `Verdicts.ReplaySlateAgreeUnderAnyBrief` | exa/orchestrator.py:673-734 | under any later brief, a replay would write a stored verdict exactly when the slate puts the person on the short list |
| `Verdicts.JudgedByDecision` | exa/orchestrator.py:1520-1695 | what a judgment writes and returns for each decision: the first gate that rules rejects, a failed call writes nothing, a plain or inferred save is on the short list unless split or out of scope, every other save and a legacy review is worth a look |
| `Verdicts.ReplayByDecision` | exa/orchestrator.py:673-734 | a replay writes exactly plain and inferred saves, undivided and not landed, that no gate and no scope check of the brief holds back |
| `Verdicts.SectionByDecision` | exa/orchestrator.py:2415-2520 | the section the slate files each stored verdict under, for every decision, gate, split, readability and known flag |
| `Rejudge.ResolveByBuckets` | exa/rejudge.py:132-161 | what samples decide, read off which buckets occur: kept iff none, a failure among them, or too few; split iff a reject stands beside a slate sample; reject only when every sample rejects |
| `Rejudge.ResolveOrderIndependent` | exa/rejudge.py:132-161 | permuting the samples changes neither whether the verdict is kept, nor the bucket, nor the split flag |
| `Rejudge.SlateLeavesOnTwoRejects` | exa/rejudge.py:105-161 | a verdict leaves the slate only on rejects alone, and on at least two unless it was an earlier reject; a rejecting sample bars the short list |
| `Rejudge.SettlePool` | exa/orchestrator.py:953-1000 | the pool loop, cut at any completion: a job is settled exactly when its last sample is in, once, on the resolution of its own samples in completion order |
| `Rejudge.OutcomesAt` | exa/orchestrator.py:953-1000 | a job's samples are exactly the completions that name it, in the order they came in |
| `Rejudge.PoolConfluent` | exa/orchestrator.py:966-1000 | two completion orders of the same samples give each job the same fate |
| `Rejudge.SettledIsCurrent` | exa/rejudge.py:175-208 | a verdict just written is current: re-judging it under the same criteria is never selected again |
| `Lifecycle.BegunExecutes` | shared/runtime_state/store.py:2196-2443 | beginning a side effect executes exactly when it has not landed, is not in progress, and has attempts left; a refused one that landed stays landed |
| `Lifecycle.RefusedMoves` | shared/runtime_state/store.py:125-164 | exactly which moves between states the store lets through, and which save-family verdicts it refuses to re-open |
| `Lifecycle.PersistByField` | exa/orchestrator.py:1468-1518 | every field of a person's row after each write of persisting them |
| `Campaign.SelectedIsDue` | exa/rejudge.py:91-208 | the re-judge pass takes a recorded row up iff it is terminal and untouched, and cleared, or holds a model verdict whose criteria moved (by fingerprint where both carry one, else by brief hash) and whose own opt-in is on: the slate's for saves and reviews, the rejects' for the rest |
| `CampaignInvariant.StepKeeps` | exa/orchestrator.py:460-627 | every durable write, process decision, crash and outside action keeps the campaign invariant over rows, effects, events, queries and whatever the process is in the middle of |
| `CampaignInvariant.RunKeeps` | exa/orchestrator.py:460-627 | the invariant holds after any run of steps |
| `CampaignTheorems.NobodyLost` | exa/orchestrator.py:1285-1320 | in every reachable state, everyone kept from the run that completed a query has a stored record; between sessions they hold a verdict or a resume with no opt-in takes them up, if and only if no crash split the two writes of `start_stage` for them and no recruiter acted on their cleared row |
| `CampaignTheorems.EveryRowAccounted` | exa/orchestrator.py:1468-1518 | the same for everybody the campaign ever found: between sessions a row holds a verdict or is taken up iff no crash fell before its snippet write, none split `start_stage`, and no recruiter acted on it while cleared; and it has no record iff the first, is stranded iff the second |
| `CampaignHistory.RunKeepsHistory` | exa/orchestrator.py:1468-1518 | over any run, each crash a person is recorded for is exactly what their row shows: cut ones are stranded, halved ones wait cleared for a fresh judgment, and a row has no record iff it is being persisted or a crash stopped that |
| `CampaignTheorems.DoneIsNeverSearched` | exa/orchestrator.py:1300-1308 | a query once synced `done` stays done and is never searched again, over any run |
| `CampaignTheorems.AbandonedForever` | exa/orchestrator.py:758-826 | a person whose judgment was cut between the two writes of `start_stage` is left alone by every later session |
| `CampaignTheorems.UnrecordedForever` | exa/orchestrator.py:1468-1518 | a person whose persistence was cut before the snippet write never gets a record |
| `CampaignTheorems.SavedOnceAfterVerdict` | exa/orchestrator.py:1953-2025 | over all runs a workspace effect is recorded as succeeded at most once per person, after a write; and every write is made on a durable, undivided plain or inferred save of somebody no gate and no scope check of that session's brief holds back |
| `CampaignTheorems.WritesAccounted` | exa/orchestrator.py:1953-2027 | how often a person is written: once for the record of it, if there is one, and once for each crash that fell between a write and its record; so nobody recorded as landed is written again, and a person is written again exactly after such a crash |
| `CampaignTheorems.ClearedVerdictLogged` | exa/orchestrator.py:1041-1065 | from clear to replacement the newest event about the person holds the old verdict, and between sessions a resume finds the row cleared, pending or stranded, the last two only after the matching crash |
| `CampaignTheorems.TwoRejectsUnlessHalved` | exa/rejudge.py:105-161 | a cleared slate verdict that becomes the model's reject does so on two rejecting samples iff no crash, since the person was last judged, cut a re-judge of theirs between attempt and verdict |
| `CampaignTheorems.GuardsNeverFire` | shared/runtime_state/store.py:125-164 | no write of any run is refused by the store's lifecycle or save-family guard |
| `CampaignHistory.RowsElsewhere` | exa/orchestrator.py:1520-1695 | a step changes no other person's row but by a reconcile or a recruiter's mark |
| `CampaignTheorems.QueriesElsewhere` | exa/orchestrator.py:1228-1320 | a step that is not about a query leaves its status, its searches and whom it kept alone |
| `CampaignWitnesses.JudgmentCutHappens` | shared/execution/runtime.py:93-128 | a concrete run that abandons a kept person between the two writes of `start_stage` |
| `CampaignWitnesses.PersistCutHappens` | exa/orchestrator.py:1468-1518 | a concrete run that leaves a row with no record |
| `CampaignWitnesses.OneRejectAfterCut` | exa/rejudge.py:19-26 | a concrete run in which a landed save, re-judged by a later session under other criteria, leaves the slate on one reject after a crash inside that re-judge |
| `CampaignWitnesses.TouchedWhileCleared` | exa/rejudge.py:180-200 | a concrete run in which a recruiter acts on a row cleared by a later session's re-judge, and nothing takes it up again |
| `CampaignWitnesses.WrittenTwice` | exa/orchestrator.py:648-756 | a concrete run in which a replay writes a person a second time, after a crash between the first write and its record |
| `Session.RuntimeStore.ReconcileOpenAttempts` | shared/runtime_state/store.py:2139-2194 | every open attempt becomes a retryable failure; no other row changes |
| `Session.RuntimeStore.ReconcilePendingSideEffects` | shared/runtime_state/store.py:2516-2573 | every pending effect becomes interrupted; no other changes |
| `Session.RuntimeStore.SaveToWorkspace` | exa/orchestrator.py:1953-2027 | the effect row a save leaves, and that it lands iff it was executable and the write succeeded |
| `Session.RuntimeStore.Judge` | exa/orchestrator.py:1520-1695 | the row and effect one judgment leaves; everybody else untouched |
| `Session.RuntimeStore.ReplayInterruptedSaves` | exa/orchestrator.py:648-756 | every replayable person is saved, nobody else changes, and the count returned is how many landed, whichever writes the workspace takes |
| `Session.RuntimeStore.JudgePending` | exa/orchestrator.py:758-826 | everyone pending with a record is judged, nobody else changes, each save landing or failing on its own |
| `Session.RuntimeStore.RejudgeStaleVerdicts` | exa/orchestrator.py:828-1000 | every selected verdict is resolved on its samples against the event log as first read, and each save lands or fails on its own; nobody a re-judge is not due for changes, and the event log only gains the old verdicts of people it is due for |
| `SessionRules.SaveByEffect` | shared/runtime_state/store.py:2196-2443 | the effect row a save leaves, status and attempts, for every effect row before it |
| `SessionRules.ReconcileByField` | shared/runtime_state/store.py:2139-2194 | every field of a person a session finds after booting |
| `SessionRules.JudgeByDecision` | exa/orchestrator.py:1520-1695 | every field of a person's row after a judgment, decision by decision, and that only the short list is saved |
| `SessionRules.ReplayByField` | exa/orchestrator.py:648-756 | whom the replay saves, read off the row, the effect and the brief; it touches no row |
| `SessionRules.PendingByField` | exa/orchestrator.py:758-826 | whom the pending pass judges: exactly those with a record whose judgment never started or failed |
| `SessionRules.RejudgeByDue` | exa/orchestrator.py:828-1000 | the re-judge pass leaves alone whoever it is not due for or whose samples do not decide; a gate of today's brief rejects; else the combined sample is judged: the first when all reject, else the first on the short list or the first other, split beside a reject |
| `SessionRules.LandsByField` | exa/orchestrator.py:673-756 | whom the replay counts as landed when the workspace takes the write, read off row, effect and brief |
| `SessionRules.ReplaysCount` | exa/orchestrator.py:648-756 | the replay's count is the number of people who land |
| `SessionRules.RejudgeLogsTheDue` | exa/orchestrator.py:1041-1065 | the events the pass adds: the old verdict of each person due and decided, in order |
| `Session.RuntimeStore.Resume` | exa/orchestrator.py:460-530 | the whole resume, person by person, for any answers of the workspace to each write, and the event log after it |
| `Session.ResumeLandsEverySave` | exa/orchestrator.py:648-826 | a fault-free resume lands a save the brief makes iff its attempts were not used up before the resume; it leaves nobody pending, nothing selected for re-judge, no effect in progress |
| `Session.UsedUpNeverLands` | shared/runtime_state/store.py:2196-2443 | a save that failed three times, which the brief makes and no fault-free resume lands |
| `Session.JudgedIffTakenUp` | exa/orchestrator.py:758-1000 | after a fault-free resume a person holds a verdict iff they held one or were pending or cleared when it began |
| `Session.ResumeTwiceDoesNothing` | exa/orchestrator.py:648-1000 | repeating a fault-free resume of a store under the same brief changes nobody and leaves the event log as it was, whatever judge and samples would now say |
| `SessionRun.ResumeIsARun` | exa/orchestrator.py:460-530 | a resume nothing interrupts is a legal run of the campaign's transition system that takes every person, and the event log, where the resume takes them; so the campaign's theorems hold of it |
| `SessionRun.ResumeJudgesEverybody` | exa/orchestrator.py:460-530 | in every reachable state between sessions, a fault-free resume leaves a person with a verdict iff no crash fell before their snippet write, none split their `start_stage`, and no recruiter acted on their cleared row |
| `Slate.FileEntries` | exa/orchestrator.py:2415-2520 | one pass over the candidates fills each list with exactly the people of its section, in order, and the counters with exact counts |
| `Slate.FileTerminal` | exa/orchestrator.py:2428-2520 | one person, branch by branch, changes exactly the list and counters of their section and stored gate |
| `Slate.EveryTerminalFiledOnce` | exa/orchestrator.py:2415-2520 | the seven sections together hold each terminal person once |
| `Slate.FiledInOnePlace` | exa/orchestrator.py:2415-2520 | no person is in two sections |
| `Slate.GateRejectionsAreAlsoFiled` | exa/orchestrator.py:2440-2460 | a stored gate rejection adds one to the count of its gate and is filed as rejected or already known as well |
| `Slate.CoverUnits` | exa/orchestrator.py:2521-2577 | each work unit lands on one row of one plane, each row has a unit and holds its family's total, and campaign totals are the sums over firm and archetype rows |
| `Slate.RowCounts` | exa/orchestrator.py:2521-2577 | a row's queries are the units of its family, its skipped ones those among them that were skipped |
| `Slate.FiledAt` | exa/orchestrator.py:2415-2520 | each list holds the people of its section in campaign order |
| `Slate.CountsMarked` | exa/orchestrator.py:2428-2460 | the counters count failed judgments and terminal verdicts by gate |
| `Slate.RanCounts` | exa/orchestrator.py:2521-2577 | the queries run are the units that ran |
| `Plan.Progress.MergePlan` | exa/runtime_bridge.py:399-490 | the in-place merge produces the merged plan and reports exactly the added, skipped, dropped and requeued rows; it reports a change iff a row changed |
| `Plan.Progress.Match` | exa/runtime_bridge.py:440-470 | popping stored rows off per-key buckets consumes exactly the rows whose rank within their key the brief still compiles, and adds the rest under fresh ids |
| `Plan.Progress.Revise` | exa/runtime_bridge.py:472-489 | matched rows retired by a dropped lane or plan come back queued, unmatched runnable ones are retired under the right note, every other row stays |
| `Plan.ChangesAt` | exa/runtime_bridge.py:472-489 | each report list names exactly the rows that underwent its change, in plan order |
| `Plan.RowByStatus` | exa/runtime_bridge.py:472-489 | what becomes of a stored row by its status, its note and the lanes, down to the text of the note and the list it is reported in |
| `PlanTheorems.MergeIdempotent` | exa/runtime_bridge.py:399-490 | merging twice is merging once, for any multiplicities and statuses |
| `PlanTheorems.MergeConverges` | exa/runtime_bridge.py:513-566 | a merge whose sync was cut after any number of rows, merged again, arrives at the same plan |
| `PlanTheorems.MergeKeepsRows` | exa/runtime_bridge.py:453-490 | no row is deleted or re-identified, `done` and `error` rows are exactly kept, nothing becomes done |
| `PlanTheorems.MergeIdsFresh` | exa/runtime_bridge.py:453-470 | new rows are queued under ids above every id in the plan |
| `PlanTheorems.MergeFollowsBrief` | exa/runtime_bridge.py:472-489 | every runnable row is in the plan and no row in the plan stays retired |
| `PlanTheorems.MergeCovers` | exa/runtime_bridge.py:440-470 | every compiled query has a row of its key and rank |
| `PlanTheorems.UndoRestores` | exa/runtime_bridge.py:399-490 | merging another brief and then the first again gives every stored row its status back (an interrupted one may come back queued), and retires what the other brief added |
| `Compile.CompileExaQueries` | exa/lane_compiler.py:274-397 | the nested loops produce firm queries lane by lane, the fallback when there are no firms, then archetypes, numbered by position |
| `Compile.CompiledByLane` | exa/lane_compiler.py:79-397 | what is compiled, text by text: for each firm lane the brief wants (all of them when it names none) one query a firm in canonical then brief order, or without firms one people search a title term; then one query an archetype iff that lane is wanted; nothing else |
| `Compile.CompiledKeys` | exa/schemas.py:148-158 | each compiled query is planned under its lane with its firm, or with its archetype |
| `Compile.LanesOfWanted` | exa/lane_compiler.py:79-104 | an edit tells the merge exactly the lanes the brief wants |
| `Compile.CompiledNumbered` | exa/lane_compiler.py:291-300 | compiled ids are 1..n and every compiled query is queued without a note |
| `Compile.LaneOrderIrrelevant` | exa/lane_compiler.py:79-91 | permuting or repeating the brief's lanes changes nothing |
| `Compile.ArchetypesOnlyExtend` | exa/lane_compiler.py:301-330 | appending archetypes only extends the compiled list |
| `Compile.FreshSyncConverges` | exa/runtime_bridge.py:300-397 | a first sync cut after any number of rows resumes into the full plan |
| `Compile.HistoryKeeps` | exa/runtime_bridge.py:399-490 | over any history of edits and progress no row is deleted or re-identified, a done row is frozen, ids stay distinct |
| `Compile.EditGoverns` | exa/runtime_bridge.py:453-490 | right after an edit every runnable row is asked for by the brief and every compiled query has its own unretired row |
| `Recovery.LoadProgress` | exa/runtime_bridge.py:576-624 | the rows come back as the recovery rule says, looked up through per-key lists |
| `Recovery.SyncLoadRoundTrip` | exa/runtime_bridge.py:513-624 | a plan whose payloads all read loads back as it was synced |
| `Recovery.CompiledPlain` | exa/lane_compiler.py:301-330 | no brief compiles an archetype-lane query whose key is the bare prefix |
| `Recovery.HistoryPlain` | exa/runtime_bridge.py:399-490 | nor does any history of edits and progress bring one into the plan |
| `Recovery.DegradedKeepsKey` | exa/runtime_bridge.py:214-237 | a row's columns give back its query's planning key iff it is not an archetype-lane query whose key is the bare prefix |
| `Recovery.LostPayload` | exa/runtime_bridge.py:597-618 | in every plan a history of edits and progress leads to, a row without its payload keeps id, key and counters; it is retired for good iff it could run and has no text, else keeps status and note; no text-less row runs |
| `Recovery.RecoveryKeepsThePlan` | exa/runtime_bridge.py:576-624 | in every such plan, whichever payloads were lost, a recompiled brief matches the same rows and adds the same queries |
| `Recovery.RebuiltText` | exa/runtime_bridge.py:600-611 | a lost row comes back with the text the compiled query of its own rank has iff the first compiled query of its key has that text too |
| `Recovery.FallbackRebuilt` | exa/lane_compiler.py:320-333 | in a plan of title-term searches, a lost row of any term comes back as the first term's search |
| `Replanning.RequeueTransientErrors` | exa/orchestrator.py:1322-1369 | exactly the transiently errored queries go back in the queue |
| `Replanning.ReplansIsAStep` | exa/runtime_bridge.py:300-397 | a change to the stored plan is a legal campaign step iff it deletes no row, completes none and reopens none |
| `Replanning.MergeReplans` | exa/runtime_bridge.py:399-566 | any merge, and any cut sync of it, is such a change |
| `Replanning.RepairReplans` | exa/runtime_bridge.py:576-624 | so are payload recovery and the requeue of transient errors |
| `CostMeter.Round6Close` | exa/cost_meter.py:205-223 | rounding to a millionth moves an amount by at most half of one |
| `CostMeter.Round6Whole` | exa/cost_meter.py:205-223 | rounding gives a whole number of millionths, an even one where two are equally near |
| `CostMeter.EstimatePrice` | exa/cost_meter.py:96-137 | the price of every search and contents call, to the thousandth |
| `CostMeter.LedgerByLine` | exa/cost_meter.py:276-302 | what one more ledger line adds: its measured amount, else its estimate, and nothing below zero |
| `CostMeter.EstimatesAreWorstCase` | exa/cost_meter.py:96-137 | an estimate prices no smaller call higher, no search is free, and no contents call for a page is |
| `CostMeter.LedgerSpend` | exa/cost_meter.py:276-302 | the ledger reader sums measured amounts, else estimates, over the lines it counts |
| `CostMeter.Meter.Reserve` | exa/cost_meter.py:141-165 | accepted iff it fits the cap (or the cap is off), and only then committed |
| `CostMeter.Meter.Release` | exa/cost_meter.py:167-183 | takes the estimate back, never below zero |
| `CostMeter.Meter.Settle` | exa/cost_meter.py:185-223 | replaces the estimate by a usable measured charge and appends one rounded receipt |
| `Request.Send` | exa/client.py:305-418 | the retry loop: at most five dispatches, one reservation each; what stays charged is the estimate of each answer that may have bought something; the outcome is the reaction to the last answer, and every one before it was one to try again |
| `Request.ReactByAnswer` | exa/client.py:337-418 | which answers are tried again, and how a request ends on each kind of answer |
| `Request.ChargedByAnswer` | exa/client.py:337-418 | only an attempt that never left, or was refused without a charge, costs nothing |
| `Request.Call` | exa/client.py:422-510 | a whole call settles its 200 in place of that attempt's estimate and appends one receipt; a failed one appends none |
| `SpendProtocol.StepKeeps` | exa/cost_meter.py:141-223 | every interleaved step of any number of requests keeps the meter's invariant |
| `SpendProtocol.MeterIsExact` | exa/cost_meter.py:141-210 | in every reachable state the meter holds exactly the in-flight, lost and answered-with-usage estimates, the measured charges, and the estimates settled without telemetry; it passes the cap only by the overshoots |
| `SpendProtocol.ClampsNeverBite` | exa/cost_meter.py:167-210 | no release or settlement ever reaches a zero clamp |
| `SpendProtocol.BilledWithinCap` | exa/cost_meter.py:141-210 | if Exa bills within the estimates, nothing for released attempts, and reports what it bills, then money billed <= committed <= cap + epsilon |
| `SpendProtocol.RequestAccounting` | exa/client.py:337-418 | each request has at most five dispatches, and an attempt is refunded iff it provably bought nothing, else unknown, answered with usage, or a 200 |
| `SpendProtocol.LedgerAccounts` | exa/cost_meter.py:200-302 | the meter less the receipt ledger is the unresolved estimates, to half a millionth per receipt and half a millionth more |
| `Pacer.QpsPacer.Acquire` | exa/client.py:216-229 | a grant comes at least one interval after the last; it waits exactly what is left of the interval, and not at all once that has passed |
| `Pacer.GrantsSpan` | exa/client.py:190-229 | k + 1 consecutive grants span at least k intervals |
| `Pacer.WindowBound` | exa/client.py:190-229 | the grants that fall inside a window of length T number at most floor(T / interval) + 1 |
| `Governor.Counted` | github/query_validator.py:320-348 | one recorded query keeps totals equal to sums over the history, streaks equal to maximal zero suffixes and the status a function of them |
| `Governor.ExhaustionState.RecordQueryResult` | github/query_validator.py:320-348 | the channel's history grows by the result, every channel still summarises its history, others are untouched |
| `Governor.ExhaustionState.Report` | github/query_validator.py:372-376 | the exhausted and degraded lists are exactly the channels so marked, and disjoint |
| `Governor.SummaryUnique` | github/query_validator.py:290-348 | the counters are a function of the history alone |
| `Governor.StatusOfHistory` | github/query_validator.py:350-370 | the status read off the history; the five-query guard beside the save streak is implied by it |
| `MergeRecords.Merge` | exa/acquisition.py:348-396 | the loop over a dictionary and a URL index computes the fold by identity |
| `MergeRecords.MergeEvidence` | exa/acquisition.py:371-385 | the inner loop computes the fold of pages by URL |
| `MergeRecords.MergeIsHomomorphism` | exa/acquisition.py:348-396 | merge(xs + ys) = merge(merge(xs) + merge(ys)) |
| `MergeRecords.MergeIsIdempotent` | exa/acquisition.py:348-396 | merging a merged batch changes nothing |
| `MergeRecords.MergeKeepsOrder` | exa/acquisition.py:348-396 | one record an identity, where it first occurred |
| `MergeRecords.MergedRecord` | exa/acquisition.py:386-395 | each field is the first filled one of the person's records, the pages are all of theirs folded once, and the sufficiency band is recomputed |
| `MergeRecords.SufficiencyBands` | exa/schemas.py:227-241 | a record suffices with a title and a firm written, is minimal with one of them, insufficient with neither |
| `MergeRecords.PagesSurvive` | exa/acquisition.py:371-385 | every URL survives once, with exactly the highlights any read of it had; pages without a URL pass through in order |
| `Dedupe.DedupeCandidates` | exa/identity.py:259-337 | the loop rules each candidate as the batch before it decides |
| `Dedupe.RuleByReason` | exa/identity.py:259-337 | each candidate's ruling with the reasons in the order they are asked after, when a second record under a key is kept and flagged, and what it adds to which list |
| `Dedupe.KeptAndSkippedPartition` | exa/identity.py:259-337 | kept and skipped partition the batch in order, each skip under its first applicable reason |
| `Dedupe.SecondKeptIsFlagged` | exa/identity.py:307-325 | a key is kept twice only when it is weak, and then the later record is flagged |
| `Dedupe.KeptOnceUnflagged` | exa/identity.py:296-335 | a key is kept iff someone passes under it, with exactly one unflagged record |
| `Dedupe.KeptOverIsBatchFree` | exa/identity.py:259-337 | the keys kept over any batches are those someone of the whole stream passes under |
| `Dedupe.BatchingInvariance` | exa/orchestrator.py:1274-1296 | the keys kept do not depend on where the stream is cut into batches |
| `Dedupe.KeptInOneBatch` | exa/orchestrator.py:1274-1296 | a key kept once is kept by no later batch |
| `Dedupe.MergedBatchKeepsOnce` | exa/acquisition.py:555-570 | a merged batch has no duplicate and no flag, and each person kept is new and kept once |
| `Acquisition.SearchIsLegal` | exa/orchestrator.py:1274-1296 | whatever a search collects, what the merge and the filter leave of it is a search the campaign's theorems allow: distinct people without a row |
| `Names.ShareKeyByWords` | exa/identity.py:65-95 | two names share a key iff some readings of them (a comma adds the one with the first word last) agree on first and last words; a one-word name is matched by that word alone |
| `DoNotSave.DoNotSaveGate.constructor` | exa/identity.py:152-176 | the two indexes stand for the list of entries |
| `DoNotSave.DoNotSaveGate.Add` | exa/identity.py:160-176 | one more entry, indexed |
| `DoNotSave.DoNotSaveGate.Blocks` | exa/identity.py:210-237 | a reason iff some entry has the candidate's handle, or shares a name key and not both carry a handle; the reason names such an entry and gives its text or the default, the handle's own first |
| `Known.KnownPeople.Add` | exa/known.py:117-130 | every index still stands for the list of known people |
| `Known.KnownPeople.SetPool` | exa/known.py:132-147 | the pool index stands for the names given |
| `Known.KnownPeople.MatchPerson` | exa/known.py:170-184 | the answer is the one the list of people gives |
| `Known.SettleInitial` | exa/known.py:186-219 | the initial rule: one full surname that fits, or a known initial no other surname competes for |
| `Known.NeverAnotherHandle` | exa/known.py:170-219 | the answer is a known person, never one whose public handle differs |
| `Known.InitialSettled` | exa/known.py:186-219 | exactly when the initial rule matches: an initial iff one full surname under it fits; a surname iff a known initial fits and no other surname does, known or in the pool; and whose names can be answered |
| `Known.InitialCandidateFitsOne` | exa/known.py:198-206 | a candidate who is an initial is matched only to the single full surname that fits among the known |
| `Known.KnownInitialStandsForOne` | exa/known.py:207-219 | a known initial is matched only when no other surname, known or in the pool, could stand for it |
| `Known.TwoOfOneSurnameMatch` | exa/known.py:198-206 | a candidate who is an initial is matched though two known people of one surname, and another surname of the campaign, fit it |
| `Experience.FillPosition` | exa/linkedin_render.py:626-678 | the two loops take exactly the lines before the block closes |
| `Experience.ParseExperience` | exa/linkedin_render.py:547-623 | the loop over pending blocks yields the positions of the section |
| `Experience.EachLineHasOneOwner` | exa/linkedin_render.py:566-623 | blocks are disjoint runs of lines in page order, each right under its heading |
| `Experience.BlanksIgnored` | exa/linkedin_render.py:574-577 | blank lines change nothing |
| `Experience.NothingAfterTheClose` | exa/linkedin_render.py:634-646 | what follows the closing line never reaches the person |
| `Experience.CloseByLine` | exa/linkedin_render.py:634-678 | the line a block closes at |
| `Experience.FilledByLine` | exa/linkedin_render.py:626-678 | every field of a filled position, for any body: the heading's own, the last dates, the first twelve lines of words, the last department and level, before the close |
| `Experience.EveryHeadingOpens` | exa/linkedin_render.py:566-623 | every heading opens a block that states it, with the firm above for a nested one, and a block runs to the next heading |
| `Experience.AccountRoundTrip` | exa/linkedin_render.py:626-678 | a printed account reads back as the position it states, field by field |
| `Experience.ExperienceRoundTrip` | exa/linkedin_render.py:547-678 | printing any well-formed list of positions, standalone or grouped, and parsing it gives the list back |
| `Grounding.AllTokenBounded` | exa/extraction.py:124-132 | exactly the token-bounded positions, strictly increasing |
| `Grounding.IncreasingIsUnique` | exa/extraction.py:124-132 | which settles the list |
| `Grounding.NameAnchors` | exa/extraction.py:445-472 | exactly the spans where the name is anchored |
| `Grounding.AnchorOfWords` | exa/extraction.py:445-472 | an anchor in terms of where the first and last words stand, at most forty characters apart |
| `Grounding.SegmentsAre` | exa/extraction.py:410-429 | what is searched: the excerpt and each highlight apart, normalized, when anything is left |
| `Grounding.InNameWindow` | exa/extraction.py:475-489 | true iff the text is token-bounded in some window |
| `Grounding.GroundProfile` | exa/extraction.py:492-557 | the claim reduced to what the page supports |
| `Grounding.BesideIsClose` | exa/extraction.py:475-489 | standing in a window is occurring within half of it of an anchor, with boundaries except where the window is cut |
| `Grounding.CutTitleIsKept` | exa/extraction.py:475-557 | a claim grounded whole on a page of plain words, one space apart, although its title is nowhere a word of the page, for every normalization that leaves such text alone |
| `Grounding.GroundedExactly` | exa/extraction.py:492-557 | a claim is kept iff the page names the person and the quote carries the surname, with exactly the fields the page supports |
| `Grounding.GroundingIsSound` | exa/extraction.py:492-557 | whatever a grounded record says is on the page, and was claimed |
| `Grounding.GroundingIsIdempotent` | exa/extraction.py:492-557 | grounding a grounded record changes nothing |
| `Grounding.ExtractPeople` | exa/extraction.py:661-687 | the grounding loop computes the extraction |
| `Grounding.ExtractionIsExact` | exa/extraction.py:661-687 | the people returned stand, in claim order, for exactly the claims that are named, quoted from one part of the page and anchored on it, each with exactly its supported fields |
| `Grounding.Reground` | exa/acquisition.py:540-553 | the second pass and its drop count |
| `Grounding.RegroundOneMore` | exa/acquisition.py:540-553 | each person is kept with the supported fields, or counted as fabricated, and when |
| `Grounding.RegroundingDropsNobody` | exa/acquisition.py:535-553 | the second pass drops and changes nobody the extractor kept |
| `Evidence.OrderIsStable` | exa/evidence.py:289-320 | page order lists every position, by tier and then as retrieved |
| `Evidence.StableOrderUnique` | exa/evidence.py:310-320 | and is the only such order |
| `Evidence.ExcerptStandsLast` | exa/evidence.py:269-286 | the excerpt is the last of at most eight facts of its page, however many highlights, unless the profile section already prints that page; before it come the first highlights in order, all of them when they fit, none empty |
| `Evidence.PrintPage` | exa/evidence.py:384-394 | the inner loop, stopped at the first overrun, prints what the ledger allows |
| `Evidence.PrintedUpToOverrun` | exa/evidence.py:384-394 | a page prints its new facts, once each, exactly up to the first that does not fit in 8000 characters, and nothing from there on |
| `Evidence.BuildBlocks` | exa/evidence.py:372-417 | the loop computes the blocks of the ordered pages and each page's own facts |
| `Evidence.BlocksKeepToBudget` | exa/evidence.py:372-417 | every block is right: non-empty, its page's own facts, at most eight, and a missing fact repeats a printed one or stands at or after an overrun on its page; no two printed facts alike; text within budget |
| `Evidence.EvidenceWithinBudget` | exa/evidence.py:289-417 | the same for a record: min(6, pages) blocks, over a prefix of the stable order |
| `Evidence.DuplicatePlaceholderMeans` | exa/evidence.py:396-398 | the duplicate placeholder is true of its page iff no fact of the page not yet shown overran the budget |
| `Evidence.DuplicatePlaceholderUntrue` | exa/evidence.py:384-398 | three pages of different URLs with long facts, the last of which prints the placeholder though nothing of it was shown |

## Left out

- HTTP, TLS, asyncio and the response parsers: a dispatch ends in one of five ways, chosen freely.
- SQLite, file locks and JSON files: the store is a set of rows, effects and an event log written by one process at a time; the `failed_terminal` and facial states, which the Exa path never enters, are not states here.
- The judge and all prompts: an outcome is any decision in its own bucket.
- The employer, alumni, location and scope matchers, and the fault paths on which they fail soft: a person is or is not in a set of the brief.
- Text normalization, Unicode folding, whitespace beyond ASCII, regular expressions: functions of the text, or lines and words already classified. A name key is its list of words rather than the words joined by a space.
- What a query asks for (its text, domains, result count) in the lane compiler: the three texts of a firm and the text of an archetype are inputs.
- CampaignTheorems.SavedOnceAfterVerdict: no operator acts on the store; marking a person's side effects invalidated by hand (shared/runtime_state/store.py:2575-2627, called by the admin command and another source) would let a landed save run again.
- Campaign.Apply: abstracts everything boot does to the plan into one free step; `Replanning` proves the plan merge, its cut sync, payload recovery and the requeue instances of it, and cloning a run's rows is not modelled.
- Session.RuntimeStore.Resume: is a session nothing interrupts, settling one person at a time; interruptions are in `Campaign`, completion orders in `Rejudge`, and `SessionRun` joins it to the former.
- SpendProtocol.LedgerAccounts: assumes each receipt was appended; the code drops one silently when the ledger file cannot be written.
- CostMeter.Round6Close: rounding is modelled, other floating-point error is not.
- MergeRecords.Merge: works on values, so it does not capture that the source updates the caller's records in place, or that a merged page may hold more highlights than the ingestion cap.
- MergeRecords.MergeIsHomomorphism: asks that each record lists a URL once, as every record read off one page does; the sufficiency band needs no such premise, because it is recomputed whenever two records fold.
- Dedupe.DedupeCandidates: takes the gate's answer as a function of the candidate rather than calling the gate object.
- DoNotSave.DoNotSaveGate.Blocks: leaves open which of several name matches speaks, since the source walks a set.
- Known.KnownPeople.MatchPerson: leaves open which of several name-key matches is answered, for the same reason, and does not keep the log of ambiguous initials.
- Experience.ExperienceRoundTrip: starts from classified lines; what the regular expressions take for a heading, a date, a bullet, a meta line or a blurb is not modelled, nor is the 400-character cut of a line.
- Section splitting, the education parser, `seat_pair`, the page-title parser and `ExaCandidate.from_dict`: one-pass readers that would add only easy members.
- The result loop of `run_query` apart from re-grounding and merging: it counts drops and calls the members above.
- Stats, console lines, `saves.jsonl` withdrawal markers, reports, health checks: output only.
- The backfill of brief hashes onto rows stored without one (shared/runtime_state/store.py:728-744): it sets the hash `rejudge_status` reads, so such a row counts as judged under the brief of the session that fills it in; here a row has the hash its verdict was written with.
- `placed` and archetype credit counts of the slate: sums over the same rows.
- GitHub clients, enrichment, query validators other than the exhaustion governor: not part of this model.
