# llmkit, modelled in Dafny

llmkit is a Go toolkit for language-model programs. This project models its hard parts and proves what they promise,
for every input, every run and every interleaving:

- **The agent loop** (`Loop`, `Runner`, `LoopTurns`, `LoopSafety`, `LoopLimits`, `LoopLedger`, `LoopPasses`,
  `LiveSpend`): turns, tool dispatch, nudges, continuation of capped answers, compaction, recovery from overflow,
  finalization. `Loop` says what one run computes; `Runner` holds the object whose fields the methods update, proved
  equal to it. The client, the tools, the policy, steering, the pool and cancellation are oracles (`Worlds`);
  cancellation is monotone.
- **Replay and resume** (`Record`, `ReplayClient`, `ResumeClient`, `ReplayScan` … `ReplayTheorem`, `ResumeToolSim`,
  `Interrupted`, `Resume`, `ResumeOn`, `ForgottenPass`, `ClientObjects`): a record becomes a client, tools and a policy
  that drive the same loop to the same history, whatever order a turn's calls are dispatched in. A resumed run is the
  same loop over the resume client and a live world behind it: it stands where the recorded run stood through all that
  is on record, judges its budget alike, pays for live replies only, and goes on as the uninterrupted run would.
- **Compaction** (`Compaction`, `Summaries`, `Triggers`, `Spill`): stubs, summaries, spill markers, and the triggers
  that bound the work.
- **The image scanner** (`JsonText`, `ImageScan`, `ImageRewrite`): a one-pass byte walker with an event log it rolls
  back, against a definition on JSON trees.
- **Path resolution** (`PathWalk`), **the process-tree kill** (`Processes`, `KillWalk`), **streaming retry, fallback
  and span ownership** (`Retry`, `Streaming`).
- **Buffers and sinks**: the head-and-ring output buffer (`CappedBuffer`), the JSONL sink (`JsonlSink`), the embedding
  cache (`EmbedCache`), the setup script (`ShellScript`).

A world is steady when it steers nothing and a tool that returns a lone text block gives it text alone; its policy may
deny and rewrite calls, its context may end and its pool run dry. It is undisturbed when the last two never happen. A
pass is harmless when a resumed run does not miss its cost.

`dafny verify dfyconfig.toml` checks everything.

## What turned out different from the documentation

- `trimDanglingToolTurn` does not repair a cut-short turn whose unanswered calls all repeat an answered call's id.
  `Pairing.TrimRepairsDangling` gives the exact condition, `Pairing.RepeatedIdIsNotTrimmed` the input.
- A record drops a lone text block's other fields, so its replayed message differs. `ReplayTurn.ServedReproduces` says
  exactly when, `ReplayTurn.LoneBlockLosesItsUrl` gives the input, and the replay theorem asks no more of the tools.
- A resumed run serves a rewritten call with its recorded arguments, but an empty rewrite of `null` reads as no rewrite
  in its own record: `ResumeToolSim.RewriteIsTold` gives the input and shows it is the only one.
- `resumeCompactor` zeroes a recorded summary's usage before `maybeCompact` and `completeRecovering` read it, so the
  triggers do not wait after a pass that was paid for. `Triggers.ForgettingShows` gives the exact condition for a pass
  of either kind, `Triggers.ForgettingShowsInLists` for a run's passes, and `ForgottenPass.ForgettingFails`, for any
  prompts, an undisturbed run that ends well and whose complete record resumes into a failed completion. Where no cost
  is forgotten, the resumed run repeats the record (`Resume.ResumeRepeatsTheRecord`).
- `FSRoot.contains` compares with the root followed by a slash, so a root at `/` contains only itself
  (`PathWalk.ContainsIff`).
- A path text or a link body with a slash behind a file, and an empty link body, resolve where a kernel walk fails
  (`PathWalk.TrailingSlashAccepted`, `PathWalk.UntidyLinkParts`). `PathWalk.LoopIsKernel` says exactly when the two
  agree where no link body is empty or ends in a slash.
- The capped buffer's flag is also up when the stream exactly fills the ring; `CappedBuffer.Buffer.Result` states
  exactly when it is up.

## Model

| member | source | states |
|---|---|---|
| LoopSafety.EveryRequestIsPaired | agent/runner.go:331-519 | in every run, against every client, tool, policy, cancellation, steering and compaction, each request's assistant turns are followed directly by results with the same non-empty ids in call order, and the history left is whole turns or one cut-short turn |
| LoopSafety.LeftoverIsContinuable | agent/runner.go:641-664 | a history a run leaves can seed the next run when the ids within each turn are distinct |
| LoopSafety.MaybeCompactNeverGrows | agent/runner.go:721-753 | a boundary pass never leaves a larger estimate |
| LoopSafety.BoundaryIsAPass | agent/runner.go:721-753 | what a turn boundary of the loop does to its triggers is one pass of the trigger machine, at the estimate before it |
| LoopSafety.CompleteOnceIsSound | agent/runner.go:795-827 | an answer, its one continuation included, leaves a well-formed history with one open assistant turn |
| LoopSafety.RecoverIsSound | agent/runner.go:833-860 | overflow recovery keeps the history and every request well formed, and names every call |
| LoopSafety.ToolPhaseIsSound | agent/runner.go:486-515 | results close the open turn, and only a done context leaves it short |
| LoopSafety.ToolsStopOnlyWhenDone | agent/dispatch.go:521-580 | fewer results than calls means the context was done |
| LoopSafety.RunCompactorKeepsPairing | agent/summarize.go:67-98 | the stubbing and the summarizing compactor keep the history well formed, whatever the model answers |
| LoopLimits.StopsMeanWhatTheySay | agent/runner.go:366-519 | in every run a cap of N iterations serves at most N+3 completions, at most two nudges are spent, tool-less requests come last and only with a finalize prompt, and a run that ends without fault says truthfully why: untruncated means a visible answer that was neither cut off nor refused; a cap, the budget or the pool means that at the top of a turn or behind a turn's tools the iterations had reached it, the chargeable tokens of the record so far and the seed exceeded it, or the pool answered exhausted, and only tool-less requests followed |
| LoopLimits.CompleteOnceAsks | agent/runner.go:795-827 | one turn serves at most two completions, all with the same tool-less flag, and the outcome's last stop and text are the answer's |
| LoopLimits.StopKeeps | agent/runner.go:688-712 | the reserved turn comes after everything else, at most once |
| LoopLog.RunWritesForward | agent/runner.go:331-519 | a run only adds to its record, and what it adds reads on from what was read |
| LoopLog.TurnCloses | agent/runner.go:331-519 | at the top of every turn no group of summary calls is open in the record |
| LoopLedger.LedgerBalances | agent/runner.go:1012-1023 | in every run Outcome.Usage is the sum of the usage in its record, compaction calls included |
| LoopPasses.RunCompactsBoundedly | agent/runner.go:585-624 | in every run the triggers are the first ones after the run's passes, the budget in force is the history budget times two to its counted boundary passes, and k of them with every estimate at most E need B*2^(k-1) < E; only the summarizing compactor is paid |
| LoopPasses.BoundaryAddsItsPass | agent/runner.go:721-753 | a boundary leaves passes and triggers alone or adds one pass and applies it |
| LoopPasses.RetryAddsItsPass | agent/runner.go:833-860 | a recovery that retries adds its recovery pass and applies it |
| LiveSpend.OnlyLiveSpendCounts | agent/runner.go:528-553 | in every run on a live world and in every resumed run, diverging or not: the replies used up are a beginning of the live ones, Outcome.Usage is their usage, the pool was charged for each of them and each summary pass, and the seed is the usage of what the record served |
| LiveSpend.SummarizeTakes | agent/summarize.go:105-120 | a summarization uses up a beginning of the replies, and its calls cost what they cost |
| LiveSpend.AskTakes | agent/resume.go:234-262 | a completion uses up the next live reply, or none and is free; the seed stays what the record served |
| LiveSpend.ExecuteStock | agent/dispatch.go:521-580 | a tool turn uses up no reply, live or recorded |
| Loop.Stitch | agent/runner.go:874-892 | a stitched text begins with the whole head |
| Loop.Overlap | agent/runner.go:874-892 | the overlap said once is the longest there is |
| Runner.AgentRun.RunLoop | agent/runner.go:331-519 | the loop over the run's fields ends, and ends as the loop function says |
| Runner.AgentRun.TakeTurn | agent/runner.go:366-434 | one pass: limits, budget, pool, cancellation, then the body |
| Runner.AgentRun.StopAt | agent/runner.go:688-712 | the reserved tool-less turn, once, and the truncation reason |
| Runner.AgentRun.MaybeCompactNow | agent/runner.go:721-753 | the compaction decision on the fields, charged and recorded |
| Runner.AgentRun.CompleteTurn | agent/runner.go:795-827 | a capped answer without calls is continued once and stitched |
| Runner.AgentRun.CompleteWithRecovery | agent/runner.go:833-860 | a refused request is compacted and retried once |
| Runner.AgentRun.CompleteRequest | agent/runner.go:927-1023 | one request: ids filled, recorded, folded into the outcome |
| Runner.AgentRun.StitchTexts | agent/runner.go:874-892 | the scan for the overlap finds the longest |
| Runner.AgentRun.RecordResults | agent/runner.go:491-500 | results are recorded and appended in call order |
| Runner.AuthorizeAll | agent/dispatch.go:109-165 | every call is authorized in call order before the first one runs |
| Runner.ExecuteInOrder | agent/dispatch.go:521-580 | sequential dispatch stops before the next call once the context is done |
| Runner.ExecuteParallel | agent/dispatch.go:521-580 | each call writes its own slot, in any order |
| CallIds.FilledIsFresh | agent/runner.go:1030-1061 | every call is named, set ids stay, and each surrogate is unlike every id of the history and of the response |
| CallIds.FilledIdsAreSet | agent/runner.go:1030-1061 | after filling no id is empty, and a response without empty ids is untouched |
| CallIds.FillEmptyCallIds | agent/runner.go:1030-1061 | the loops of the source compute that filling and end |
| CallIds.SurrogatesDiffer | agent/runner.go:1063-1070 | surrogates of different attempts differ, so the search for a free one ends |
| Pairing.TrimKeepsPaired | agent/runner.go:641-664 | a whole history is not trimmed |
| Pairing.TrimRepairsDangling | agent/runner.go:641-664 | a cut-short history is repaired exactly when some unanswered call's id is no answered call's |
| Pairing.RepeatedIdIsNotTrimmed | agent/runner.go:641-664 | two calls sharing an id, one answered: the dangling turn stays |
| Pairing.TrimDanglingToolTurn | agent/runner.go:641-664 | the scan of the source computes the trimmed seed |
| Pairing.WireKeepsPairing | agent/dispatch.go:318-340 | what is sent is as well formed as the history |
| Chat.PlacingIsIdempotent | agent/dispatch.go:289-316 | media placed under a profile is not degraded again |
| Chat.NothingDegraded | agent/dispatch.go:289-316 | the count of degraded blocks is zero exactly when every block is carried |
| Chat.DegradeToolMedia | agent/dispatch.go:289-316 | the copy-on-write loop gives the placed blocks and their count |
| Chat.WireMessages | agent/dispatch.go:318-340 | the copy-on-write loop gives the wire form, uncopied only if nothing changed |
| Compaction.StubKeeps | agent/compact.go:151-202 | stubbing keeps length, roles, ids, error marks, every other message, the last K results, and the pairing |
| Compaction.StubIsIdempotent | agent/compact.go:151-202 | a second pass prunes nothing |
| Compaction.StubShrinks | agent/compact.go:151-202 | pruning text-only results strictly lowers the byte total |
| Compaction.StubShrinksMessage | agent/compact.go:151-202 | one pruned text-only result loses at least a byte |
| Compaction.SpillSurvivesStubbing | agent/compact.go:98-124 | a spilled result's reference and original size stay readable in the marker or in the stub |
| Compaction.CompactHistory | agent/compact.go:151-202 | the index loop over a fresh copy gives the stubbed history and the count |
| Spill.SpillRoundTrip | agent/spill.go:52-77 | parsing any spill stand-in with a valid reference gives back exactly the reference and the size |
| Spill.SpillFits | agent/spill.go:116-126 | a spill stand-in fits the limit unless its marker alone is longer, and its preview is a UTF-8 head of the text |
| Spill.TruncatedIsLongest | agent/spill.go:128-138 | a truncated result ends its head on a rune, fits unless the marker alone does not, and no longer head fits |
| Spill.TruncatedStandIn | agent/spill.go:128-138 | the search over digit counts ends for every text, size and limit |
| Spill.HeadIsLongest | agent/spill.go:103-114 | the head is cut on a rune start, as late as fits |
| Spill.HeadIsUtf8 | agent/spill.go:103-114 | a head of valid UTF-8 (section 3 of RFC 3629) is valid UTF-8 |
| Spill.HeadBytes | agent/spill.go:103-114 | the backing-up loop computes that head |
| Summaries.SummaryKeepsPairing | agent/summarize.go:176-218 | replacing the cut span by a summary keeps the history well formed |
| Summaries.CutLeavesNoCallOpen | agent/summarize.go:193-218 | every call made in the replaced span is answered inside it |
| Summaries.NothingPendingAtTurn | agent/summarize.go:193-218 | in a well-formed history no pending call moves the cut |
| Summaries.FindSummaryCut | agent/summarize.go:193-218 | the scan with its pending set finds that cut |
| Summaries.SplitIsBalanced | agent/summarize.go:158-171 | both halves are non-empty, and the split is where half the bytes are reached |
| Summaries.FindSplitPoint | agent/summarize.go:158-171 | the summing loop finds that split |
| Summaries.AtMostFortyCalls | agent/summarize.go:105-120 | one summarization makes at most 40 model calls |
| Summaries.LastCallIsTheSummary | agent/summarize.go:105-120 | a summary is the stripped text of its last call, so the recorded calls determine it |
| Triggers.BudgetDoubles | agent/runner.go:595-603 | the budget in force is the first one times two to the number of counted passes |
| Triggers.CompactionIsBounded | agent/runner.go:585-603 | k counted passes of any list with every estimate at most E need B*2^(k-1) < E |
| Triggers.PaidPassWaits | agent/runner.go:595-619 | after a paid pass the reserve trigger waits for growth by the reserve |
| Triggers.ForgettingShows | agent/runner.go:595-624 | a boundary or recovery pass leaves the same triggers free as paid exactly when it was free, not due, re-armed as a free pass does, or recovered a run without a reserve trigger |
| Triggers.ForgettingShowsInLists | agent/runner.go:595-624 | over any list of passes the triggers stay the same throughout exactly when each pass is of that kind where it happens |
| Triggers.ForgottenPassesFire | agent/runner.go:595-624 | a paid summary and a paid recovery after which the free ones fire where the paid ones wait |
| ReplayTheorem.ReplayReproducesTheRun | agent/replay.go:239-302 | an undisturbed run without failed completions or rewritten calls and with distinct ids per turn, replayed under any run id with its tools and policy in sequence or in any dispatch orders, ends with the same fault, history, outcome and record, and Err() is nil |
| ReplayTools.AnyOrderServes | agent/replay.go:863-918 | confluence: after any prefix of any dispatch order each dispatched call got its own recorded result, and exactly those records are used |
| ReplayTools.ServeOne | agent/replay.go:863-918 | a call of the current turn is served its record from wherever the cursor stands |
| ReplayToolSim.ReplayedTurn | agent/replay.go:863-967 | a replayed turn feeds back what the recorded turn fed back, and leaves the turn fully used |
| ReplayTurn.ServedReproduces | agent/replay.go:957-967 | a served record gives the same record again, and the same message exactly unless a lone text block carried more than its text |
| ReplayTurn.LoneBlockLosesItsUrl | agent/replay.go:957-967 | a tool's one text block with a url is replayed as its text alone |
| ReplayTurn.LiveTurn | agent/dispatch.go:521-580 | in an undisturbed world every call of a turn gets a result of a kind the record can reproduce |
| ReplaySim.CompleteOnceSim | agent/replay.go:435-470 | a completion, its recovery and its continuation run alike on the replay and on the resume client |
| ReplaySim.MaybeCompactSim | agent/replay.go:391-412 | a compaction pass runs alike on the replay and on the resume client, where its cost is not missed |
| ReplayAlign.ServeAligned | agent/replay.go:435-470 | a client aligned with the record serves the recorded reply and stays aligned |
| ReplayAlign.SummaryAligned | agent/replay.go:335-358 | the next recorded summary is the group of calls the run made |
| ReplayAlign.TailIsTrailing | agent/replay.go:472-483 | the ids after the last assistant turn pass the structure test |
| ReplayScan.GroupOfTurn | agent/replay.go:609-640 | the calls of a turn are filed as one group under its step |
| ReplayScan.RunsAreFiled | agent/replay.go:609-640 | every registered call of the record is filed in some group |
| ReplayClient.ScanRecord | agent/replay.go:255-302 | the loop over the events computes what was read |
| ClientObjects.ReplayObject.Complete | agent/replay.go:435-470 | serving the next completion, on the fields |
| ClientObjects.ReplayObject.Dispatch | agent/replay.go:863-918 | the loop past used-up turns serves the call or diverges |
| ClientObjects.ReplayObject.FindCall | agent/replay.go:922-937 | the scan finds the first unused call that fits, else the first with the id |
| ClientObjects.ReplayObject.FindCurrent | agent/resume.go:373-383 | the scan finds the first turn the last served response asked for |
| ClientObjects.ReplayObject.Err | agent/replay.go:789-829 | nil exactly when nothing diverged and everything recorded was served |
| ClientObjects.ResumeObject.Complete | agent/resume.go:234-262 | while the record serves, recorded usage moves to the seed and is served as zero; past it the call goes live |
| ClientObjects.ResumeObject.Compact | agent/resume.go:455-478 | recorded summaries are served with zero usage while the record owns a pass, and the pass goes live after |
| ClientObjects.ResumeObject.Decide | agent/resume.go:413-445 | the call's unused recorded denial, else its unused dispatch, else a mismatch or, past the record, live |
| ClientObjects.ResumeObject.Lookup | agent/resume.go:318-353 | the decision taken for the call, else its record, else a mismatch or, past the record, live |
| ResumeToolSim.ResumeDecisions | agent/resume.go:389-445 | the resume policy decides every call of a recorded turn as the record says: its denial, or the arguments it was dispatched with, rewritten or not |
| ResumeToolSim.AnyOrderResumes | agent/resume.go:318-370 | after any prefix of any dispatch order each dispatched call got its own recorded result and records its own dispatched arguments |
| ResumeToolSim.RewriteIsTold | agent/resume.go:425-435 | a rewritten call's record gives back the arguments it ran with, and the resumed call records the same exactly unless an empty rewrite replaced `null` |
| ResumeToolSim.ResumedTurn | agent/resume.go:302-445 | a resumed turn feeds back what the recorded turn fed back, and touches nothing live |
| Resume.ResumeRepeatsTheRecord | agent/resume.go:223-262 | for every run on a steady world, rewritten calls, a later cancellation or pool stop included, every beginning of its record and every number of turns that beginning holds: if the passes so far are harmless, the resumed loop, under any run id, dispatch orders and live world that lets it go on, stands after as many turns where the recorded run stood, with zero usage and charge, the live world untouched, and the budget check reading what the recorded run's read |
| Resume.ResumeRepeatsTheCheck | agent/runner.go:505-515 | the same at the budget check behind a turn's tools |
| Resume.ResumeRepeatsTheRun | agent/resume.go:117-129 | with the whole record of a run on file that neither its context nor the pool stopped, the resumed run ends as the recorded one did, for nothing |
| Resume.EveryRunResumes | agent/resume.go:117-129 | under the stubbing compactor, or without a trigger, every run on a steady world resumes so |
| ResumeOn.ResumeEndsAlike | docs/agent-loop.md:452-459 | cut off after any turn, by its context, the pool or a crash, and resumed over a live world that answers as the original would have, the run ends as the uninterrupted one: the same fault, history, iterations, answer and truncation, the same events since the cut, the same budgeted usage, of which its own is what the record did not serve |
| ResumeOn.ResumeChecksAlike | docs/agent-loop.md:452-459 | and at the top of every later turn the history and the budgeted usage are the uninterrupted run's |
| ResumeOn.ToolsPast | agent/resume.go:318-353 | past the record a tool turn is the live world's |
| Interrupted.TurnCalmed | agent/runner.go:395-409 | a turn that neither the context nor the pool stopped is the turn of the run neither ever stops |
| Interrupted.ToolsCalmed | agent/dispatch.go:521-580 | so is a tool turn behind which the context has not ended |
| Resume.StubbingIsHarmless | agent/runner.go:721-753 | under the stubbing compactor every pass of every run is harmless |
| Resume.NoReserveHarmless | agent/runner.go:595-624 | without a reserve trigger passes are harmless exactly when each paid boundary pass that was due shrank the history |
| Resume.RecordResumes | agent/resume.go:40-108 | any beginning of the record of a run on a steady world with a completion in it builds a resume client |
| ForgottenPass.ForgettingFails | agent/resume.go:455-478 | for any prompts, stripping, rendering and charge of which a few facts hold, an undisturbed run that ends well and whose complete record resumes, over any world that lets it go on, into a failed completion |
| JsonText.SkipsValue | decide/image.go:494-527 | every string and scalar is skipped exactly |
| JsonText.FindValueEnd | decide/image.go:506-527 | the byte loops compute the skip |
| JsonText.FindNonWs | decide/image.go:494-504 | the byte loop skips white space |
| ImageScan.ImageMeans | decide/image.go:395-450 | an object is an image exactly when every name is a Block's and its last string-valued kind says image |
| ImageScan.ForeignImageMeans | decide/image.go:452-460 | an object is a foreign image exactly when a name is not a Block's, its last kind is a string that says image and its last data is neither null nor empty |
| ImageScan.ForeignIsFirst | decide/image.go:395-436 | the foreign name reported is the first one |
| ImageScan.Walker.Value | decide/image.go:351-360 | on every well-formed value the walker's surviving events, with the paths read off its nodes, are exactly the outermost images |
| ImageScan.Walker.Step | decide/image.go:364-377 | a child keeps its path node exactly when something below it was logged |
| ImageScan.Walker.Array | decide/image.go:379-391 | the same of an array |
| ImageScan.Walker.Object | decide/image.go:395-441 | the same of an object, whose own event replaces its members' |
| ImageScan.Walker.Members | decide/image.go:403-431 | one pass over the members learns the facts and logs what stands inside |
| ImageScan.PathStable | decide/image.go:331-349 | a node's parent-linked path survives every later append |
| ImageRewrite.SpliceIsRelabel | decide/image.go:462-492 | the outermost images stand disjoint and in document order, and splicing their labels into the text gives the rendering of the tree with exactly those objects replaced |
| ImageRewrite.InOrderMeansDisjoint | decide/image.go:462-492 | any two of them are apart, the earlier first |
| ImageRewrite.ImageSet.Rewrite | decide/image.go:91-103 | the part comes out with exactly its outermost images replaced by their final labels, or with the first refusal and its path |
| ImageRewrite.ImageSet.CommitAll | decide/image.go:462-492 | the commit loop splices in document order and stops at the first refusal |
| ImageRewrite.ImageSet.Add | decide/image.go:121-152 | admission by digest, placement and media type, and the label |
| ImageRewrite.AcceptedIff | decide/image.go:462-492 | a part is accepted exactly when every image is valid and carried and no bytes come with two media types |
| ImageRewrite.LabelsTellImagesApart | decide/image.go:121-152 | by position, two images share a label exactly when they share a digest |
| ImageRewrite.CommitGrows | decide/image.go:121-152 | committing keeps every earlier image, its number, bytes and media type |
| ImageRewrite.CollectHashes | decide/image.go:107-113 | collect mode adds exactly the digests of the images that decode and never refuses |
| ImageRewrite.ReadPath | decide/image.go:331-349 | following the parent links gives the path |
| PathWalk.EvalExistingPrefix | fsroot/pathutil.go:31-113 | the loop ends on every filesystem, cyclic links included, with a symlink-free physical prefix and only plain names behind the first missing one |
| PathWalk.LoopIsKernel | fsroot/pathutil.go:31-113 | where no link body is empty or ends in a slash: from any directory, for every text, path and number of links, the loop arrives there with nothing missing, at a directory or without a slash at the text's end, exactly when the recursive walk of section 4.13 of POSIX.1-2017 Base Definitions gives that path over as many links and it is not missing |
| PathWalk.LoopAgrees | fsroot/pathutil.go:31-113 | on every filesystem, whatever the recursive walk resolves, the loop resolves to the same path over as many links |
| PathWalk.LoopIsRight | fsroot/pathutil.go:31-113 | the loop arrives only where the recursive walk does, a slash behind a file apart |
| PathWalk.LoopWasThrough | fsroot/pathutil.go:88-110 | a loop that arrives past some components passed the directory the recursive walk of them gives |
| PathWalk.SlashNeedsDir | fsroot/pathutil.go:36-43 | the recursive walk gives a directory for whatever ends in a slash |
| PathWalk.UntidyLinkParts | fsroot/pathutil.go:88-110 | a link with an empty body, or with a slash behind what is no directory, is accepted by the loop and refused by the recursive walk, wherever it stands |
| PathWalk.LoopContinues | fsroot/pathutil.go:88-110 | substituting a link's body for it is walking the body first |
| PathWalk.TrailingSlashAccepted | fsroot/pathutil.go:36-43 | a link body with a slash behind a file is accepted where the recursive walk fails |
| PathWalk.ResolvedIsFixed | fsroot/pathutil.go:17-30 | a resolved path resolves to itself |
| PathWalk.ContainsIff | fsroot/fsroot.go:92-97 | containment of texts is containment of paths, except below the root directory itself |
| PathWalk.ResolveUnder | fsroot/fsroot.go:60-89 | an accepted path is spelled under the root and every walk of it that succeeds ends under the root; a refused one is absolute, spelled outside, unresolvable or resolves outside |
| KillWalk.ReachedIsGenuine | sandbox/hostexec_kill_linux.go:209-227 | a process a SIGSTOP reaches after the parent and liveness tests descends from the held process, whatever pids were reused in between |
| KillWalk.KillTree | sandbox/hostexec_kill_linux.go:174-241 | under every schedule and every failure, that of killRoot included, signals reach only the root and its descendants, and whoever was stopped is sent SIGKILL later and is dead unless that was refused, or for the root its own handle failed too; the walk ends; and when it ended settled and the tree was left alone meanwhile, whoever lived in the tree is sent SIGKILL and is dead unless refused |
| KillWalk.WholeTree | sandbox/hostexec_kill_linux.go:183-241 | once every held process does not run and holds every living child, every living process of the tree is held |
| Processes.StepsAreFrozen | sandbox/hostexec_kill_linux.go:8-40 | steps that leave a tree alone kill and continue none of it and give its stopped members no children |
| KillWalk.KillHeld | sandbox/hostexec_kill_linux.go:268-285 | every held process is sent SIGKILL, the last discovered first, and is dead unless that was refused, the root unless killRoot failed too |
| KillWalk.SignalRoot | sandbox/hostexec_kill_linux.go:246-252 | a signal refused to the root's pidfd is followed by killRoot, whose failure is ignored |
| KillWalk.Pass | sandbox/hostexec_kill_linux.go:185-230 | a pass over a growing list ends, because no pid is accepted twice; a settled one over a tree left alone leaves every held process stopped or dead with its living children held |
| KillWalk.Consider | sandbox/hostexec_kill_linux.go:209-229 | one listed pid is dropped, seen, or seen and held; in a tree left alone the child it names is held |
| KillWalk.WaitStopped | sandbox/hostexec_kill_linux.go:319-337 | re-sent stops reach only the held process, and in a tree left alone one reported stopped does not run |
| KillWalk.HostKiller.AfterStart | sandbox/hostexec_kill_linux.go:121-134 | a cancel that came too early runs exactly once, now |
| KillWalk.HostKiller.Cancel | sandbox/hostexec_kill_linux.go:146-154 | no cancel is lost, and each one after the start kills |
| KillWalk.HostKiller.Close | sandbox/hostexec_kill_linux.go:137-144 | the root's pidfd is given up, and no cancel is lost by it |
| KillWalk.HostKiller.KillLocked | sandbox/hostexec_kill_linux.go:156-162 | without a pidfd the root alone is signalled |
| Processes.StepIsSane | sandbox/hostexec_kill_linux.go:8-40 | every step of the system keeps pids unique among unreaped processes and parents alive and among the forebears |
| Processes.StepsAreSane | sandbox/hostexec_kill_linux.go:8-40 | any number of steps do, and death is for good |
| Streaming.DeltasOfOneAttempt | provider/stage_retry.go:88-141 | through any nesting of retry, watchdog, fallback, serializer and emitters, all deltas come from one leaf call, on success the one that answered |
| Streaming.ClaimedCallIsSilent | observe_client.go:57-77 | a call entering with a span emits no Completion, mints no span, and its Attempts carry that span |
| Streaming.UnclaimedCallOwnsOneSpan | provider/stage_stack.go:35-51 | a call entering an emitter or a stack without a span mints one, emits at most one Completion, and its Attempts share it |
| Streaming.ChainIsLastWrap | provider/provider.go:487-516 | any chain of Wraps is the last one over the client below |
| Streaming.ChainRetriesOnce | provider/provider.go:487-516 | however often a leaf is wrapped, one call makes at most the last options' attempts |
| Streaming.RunRetrying | provider/stage_retry.go:57-122 | the retry loop with its delivered flag |
| Streaming.RunFallback | provider/fallback.go:37-79 | the loop over the members with its delivered flag |
| Retry.Do | retry/retry.go:188-247 | between one and max(1, MaxAttempts) attempts, all but the last failing retryably; a retryable error is returned only while the context is seen alive |
| Retry.BackoffDelay | retry/retry.go:293-348 | for any jitter draw never negative and at most a positive MaxDelay; without jitter min(MaxDelay, BaseDelay*2^(n-1)) while that fits |
| Retry.Doubled | retry/retry.go:303-325 | the doubling loop with int64 wrap-around is exact while it fits and saturates beyond |
| CappedBuffer.Buffer.Write | sandbox/output.go:80-152 | any chunk appends to the stream and keeps both windows |
| CappedBuffer.Buffer.Result | sandbox/output.go:162-208 | the whole stream up to the cap, else its first head bytes, a marker with the exact elided count, and its last bytes; and exactly when the flag is up |
| CappedBuffer.Buffer.Written | sandbox/output.go:213-217 | the stream's length |
| CappedBuffer.Buffer.Overwrite | sandbox/output.go:136-148 | overwriting keeps the ring the last bytes in order |
| CappedBuffer.OverwriteTurns | sandbox/output.go:136-148 | read from the oldest byte, an overwrite drops the oldest and appends the new |
| JsonlSink.EveryFileIsOneRun | agent/transcript.go:378-410 | over every interleaving a created file keeps its creator, begins with the run's only Start and holds a Finalize only at the end |
| JsonlSink.RetiredFileIsFrozen | agent/transcript.go:294-330 | once an entry is retired its file never changes, even by an append that looked it up earlier |
| JsonlSink.DuplicateStartFreezes | agent/transcript.go:378-410 | over every interleaving, after a second Start for a run on record its file never changes |
| JsonlSink.LeftoverIsFrozen | agent/transcript.go:395-403 | a leftover file is never written to |
| JsonlSink.SectionIsGood | agent/transcript.go:378-444 | every locked section keeps the files well kept and grows only live ones |
| JsonlSink.JSONLSink.AdmitStart | agent/transcript.go:378-410 | admission, and exactly when it is refused |
| JsonlSink.JSONLSink.BeginAppend | agent/transcript.go:414-418 | the look-up of an append |
| JsonlSink.JSONLSink.BeginFinalize | agent/transcript.go:432-437 | the look-up of a finalize, which removes the entry |
| JsonlSink.JSONLSink.FinishTask | agent/transcript.go:294-315 | the write under the entry's lock |
| EmbedCache.CachedEmbedder.Embed | embed/cache.go:60-84 | whatever other calls do in between, the inner embedder's vector in memory of the caller's own |
| EmbedCache.CachedEmbedder.EmbedBatch | embed/cache.go:89-133 | index-aligned, equal to the inner embedder's, aliasing nothing stored |
| EmbedCache.CachedEmbedder.Insert | embed/cache.go:172-188 | the new entry is first, and whoever is evicted was used before everyone who stays |
| EmbedCache.CachedEmbedder.LookUp | embed/cache.go:60-74 | a hit is a fresh copy and refreshes recency; every look-up is counted |
| EmbedCache.CachedEmbedder.Clear | embed/cache.go:160-165 | nothing is left |
| EmbedCache.FrontIsByUse | embed/cache.go:172-188 | moving a key to the front keeps the list in order of use |
| ShellScript.ScriptReadsBack | sandbox/command.go:274-294 | read by sections 2.2.1 and 2.2.2 of the POSIX Shell Command Language, the script gives back each non-empty argv in order, each guarded by its exit 125, and then the final lines |
| ShellScript.QuotedArgReads | sandbox/command.go:250-252 | a quoted argument of any content reads as that argument |
| ShellScript.BuildSetupScript | sandbox/command.go:274-294 | the nested loops write that script |

## Left out

- Provider adapters, HTTP, SDK configuration and environment look-ups: they do I/O and translate between llmkit's types and each provider's own, a field at a time.
- Sandbox launch, containers, cgroups, toolchains, workspace copying: OS plumbing and flag construction.
- The prompts' texts, the think-block stripping, the rendering of entries for a summary and the charge weight: parameters of the loop's configuration; no usage costs nothing.
- encoding/json, SHA-256 and reflection: parameters. Arguments are compared as canonical text; which member a key names, what a block decodes to and the digest are functions.
- UTF-8 repair of tool strings, tool panics and timeouts beyond their rendered error, RunJSON's repair run, request policies, hooks and user-supplied compactors.
- Time and durations: deadlines, waits and tickers are counts or oracles. Error texts are not modelled beyond what control flow reads.
- ReplayTheorem.ReplayReproducesTheRun: takes the record's Start event to list the tools of the recording run, and asks a tool that returns one text block to give it text alone, because the record drops its other fields; leaves out rewritten calls, because the replay policy gives no rewrite back.
- Replay from a list of responses, and direct calls of a replay tool without a call id.
- Resume.ResumeRepeatsTheRecord: leaves out passes whose cost is missed, because then the two loops part (ForgottenPass.ForgettingFails), steering, because its record is refused, and lone text blocks with other fields, because the record drops them.
- ResumeOn.ResumeEndsAlike: speaks of records cut off at the end of a turn, not within one, and of run ids that agree unless every call comes named, because unnamed calls are named after the run.
- Resuming with the stubbing compactor a record that holds summaries.
- Comparing a resumed request with the recorded one through its canonical JSON: equality here.
- Streaming: a nil callback, the `Served` stamp of a fallback, and identities on events.
- Streaming.DeltasOfOneAttempt: a leaf's deltas and outcome are arbitrary, so what a callback's own error makes a leaf do is one of the behaviours covered, not a separate one.
- KillWalk.KillTree: promises the whole tree only when meanwhile no call fails, nobody is reaped and nobody of the tree exits or is continued, because a pid that changes hands is skipped, and a child whose parent exits is handed to another process, where the walk does not look.
- KillWalk.WaitStopped: a process is stopped as a whole, and what /proc lists as the children of one that still runs is an oracle.
- `ParseRetryAfter`: date parsing and one saturating multiplication.
- CappedBuffer.Buffer.Write: the ring is a sequence, so its capacity growth is not modelled.
- JsonlSink: encodes succeed, as the promise assumes; line depth and the read side are left out.
- `Config.Or`, option range checks, `Observers`, `Event.Validate`, the budget pool's own arithmetic: settled by one branch.
