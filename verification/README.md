# Verified core of the gateway

This project models the failover and streaming core of an LLM gateway and
proves what it promises, for every input, every interleaving and every run.
Each file follows one component of the gateway:

- `ThinkFilter.dfy`: the filter that cuts leading `<think>` blocks out of a streamed reply.
- `Breaker.dfy`: the circuit breaker of one alias tier, its record and its in-process store.
- `BreakerStore.dfy`: the shared store, replicas running WATCH/GET/EXEC transactions against each other.
- `StreamDecode.dfy` and `AnthropicStream.dfy`: the upstream normaliser and the Anthropic event writer, and the two composed.
- `Attempt.dfy`: the race between an attempt's budget, its commits and its return, and what one streamed attempt lets the client see.
- `CutReplies.dfy`: what becomes of a filtered reply when finish reasons come in the middle of it.
- `Executor.dfy`: the pass, retry and target loops that serve one request.
- `Limits.dfy`: rolling token limits in buckets with optimistic reservations.
- `Dlp.dfy`: choosing among overlapping findings and redacting the text.
- `LookupCache.dfy`: the lookup cache with shared loads, purges and stale answers.
- `Affinity.dfy`: session pins held by each replica and in Redis.
- `Routing.dfy`: the order in which a plan's targets are tried.
- `Embeddings.dfy`: placing embeddings by reported index.
- `Sorting.dfy`, `Common.dfy`: a stable sort standing in for the Go library's, and shared values.

`dafny verify dfyconfig.toml` checks the whole project.

How the parts are modelled:

- Code that updates state in place is a class or a method with loops, proved
  against a function of the old state; the theorems are about that function.
- Concurrency is a state machine whose steps are the atomic operations (a
  compare-and-swap, a Redis command, a section under a mutex), and the
  theorems quantify over every sequence of steps.
- Clocks, Redis outcomes, upstream answers, the order in which the runtime
  visits a map, and the sink's willingness to take a chunk are parameters.
- Chunks, findings and records are taken as parsed; no JSON is modelled.

Where the code and a statement about it differ, the model follows the code:

- The decoder's comments promise exactly one finish reason per stream. The code
  passes on as many as the upstream sent. With coalesced usage it makes one up when
  there was none; otherwise it makes one up when none came by the first usage report, even
  if one follows (`StreamDecoders.LateFinishIsDoubled`). `StreamDecoders.ExactlyOneFinish` says
  exactly when one comes out.
- With usage passed on as it comes, anything after the first report breaks the Anthropic
  message (`AnthropicStreams.UncoalescedStreams`).
- A chunk with both text and tool calls loses its text in the Anthropic
  writer, so text is conserved exactly when there is no such chunk
  (`AnthropicStreams.TextConserved`); interleaved tool deltas lose no bytes but
  split a call over several blocks (`AnthropicStreams.OneBlockIffContiguous`).
- A cache entry need not come from the latest successful load begun after the
  last purge: the generation is read when the Get looks, not when its load
  starts (`LookupCaches.StragglerIsNotStored`). `LookupCaches.EveryEntryIsCurrent`
  states exactly which load an entry comes from, and `LookupCaches.StoredExactly` which loads are stored. A Get
  that begins after a purge can be answered by a load begun before it
  (`LookupCaches.JoinsAcrossPurge`), exactly when one could still be joined
  (`LookupCaches.AnsweredFromBeforePurgeExactly`).
- Which labels `Merge` keeps can depend on the input order, exactly when two different findings
  share a span and rank that is kept (`Dlp.MergeIgnoresOrderExactly`): the first one
  listed wins (`Dlp.MergeKeepsFirst`). The spans never do (`Dlp.MergeIgnoresOrder`).
- A call that commits and then reports that it was served without an upstream call has its probe
  settled twice; settlements equal grants exactly when there is no such call
  (`Executors.EverySettledRunBalances`, `Executors.ServedAfterCommitSettlesTwice`).
- A breaker call reads its clock before its transaction, so records are not stored in time order. The
  run theorems do not assume that they are. The window counters count outcomes in the order stored; by
  the clock they never fall short of the outcomes since WindowStart, and exceed them exactly when an outcome of the
  window was read before its start (`Breakers.WindowCountsSinceItsStart`, `Breakers.EarlyOutcomeIsNotSince`).
- An open tier is meant to be skipped until its cooldown ends. A forced probe that is lost, its lease running out with no outcome
  recorded, lets an unforced request through inside the cooldown (`Breakers.LostProbeInsideCooldown`).
  `Breakers.FirstProbeWaits` says what happens up to the first probe since a trip, and `Breakers.LaterProbesExactly` exactly when a
  later request is let through.
- The think filter is flushed at every finish reason, not only at the end of a reply. The delivered
  text is then the stripped text exactly when no finish reason does harm
  (`StreamAttempts.ClientGetsStrippedReply`, and `StreamAttempts.OneCutStream` in closed form). Harm is done in several ways:
  in the middle of an opening tag (`CutReplies.CutOpeningTag`), in the middle of a closing tag
  (`CutReplies.CutClosingTag`), and by trimming that persists (`CutReplies.TrimPersists`).

Hypotheses that the theorems need, and that the code does not enforce by
itself, are written as `requires` clauses or as enabling conditions of steps:
an actual usage is at most its reservation, and a reservation is made and settled before
its bucket can be pruned (`Limits.Enabled`).

Every lemma carries `{:induction false}`: all inductions are written out.

## Model

| member | source | states |
|---|---|---|
| `ThinkFilters.HasAsciiFoldPrefix` | internal/httpapi/thinking.go:86-102 | true exactly when the tag stands at the start of the text, ignoring ASCII case only |
| `ThinkFilters.FoldsLetters` | internal/httpapi/thinking.go:86-102 | folding is character by character and touches nothing but ASCII capitals |
| `ThinkFilters.TrimsWhiteSpace` | internal/httpapi/thinking.go:68-73 | trimming drops exactly the leading spaces, tabs and line ends |
| `ThinkFilters.IndexAsciiFold` | internal/httpapi/thinking.go:75-84 | the offset of the first occurrence of the tag, or -1 when there is none |
| `ThinkFilters.PartialTagTail` | internal/httpapi/thinking.go:104-113 | the longest tail of the text that is a proper beginning of the tag |
| `ThinkFilters.ThinkFilter.PushText` | internal/httpapi/thinking.go:25-55 | output and new filter state are those of the pure push |
| `ThinkFilters.ThinkFilter.FlushText` | internal/httpapi/thinking.go:57-66 | output and new filter state are those of the pure flush |
| `ThinkFilters.StripThinkBlocks` | internal/httpapi/thinking.go:115-119 | the whole reply stripped by one push and one flush |
| `ThinkFilters.PushSplit` | internal/httpapi/thinking.go:25-73 | from any state of the filter, a cut anywhere in the text changes neither the output, nor the state reached, nor what is still to come |
| `ThinkFilters.ChunkingIsInvisible` | internal/httpapi/thinking.go:25-119 | for every way of cutting a reply into chunks, all pushes and the flush together give what stripping the whole reply gives |
| `ThinkFilters.StripIsSuffix` | internal/httpapi/thinking.go:115-119 | the stripped reply is a suffix of the reply |
| `ThinkFilters.StripIdempotent` | internal/httpapi/thinking.go:115-119 | stripping a stripped reply changes nothing |
| `ThinkFilters.StripMeaning` | internal/httpapi/thinking.go:10-22 | a reply read as complete blocks and a tail: the blocks go, an unclosed block goes to the end, white space after a block goes with it, all else stays |
| `ThinkFilters.ThinkBlockGoes` | internal/httpapi/thinking.go:10-16 | with the gateway's own tags, a leading block goes and the white space after it |
| `ThinkFilters.EveryReplyParses` | internal/httpapi/thinking.go:10-22 | every reply can be read that way, so the meaning covers every input |
| `Breakers.Trip` | internal/breaker/breaker.go:458-477 | the opened record, its next cooldown and the transition reported |
| `Breakers.MemStore.Admit` | internal/breaker/breaker.go:234-304 | the admission, the transition and the stored record of one atomic admit or force: a closed tier passes; an open one is skipped, with its open-until, exactly while that lies ahead and the request is not forced; a probed one is skipped exactly while its lease runs; otherwise the request is the probe, under a lease of at least 30 s, and only then is anything stored |
| `Breakers.AdmitMeans` | internal/breaker/breaker.go:74-84 | the same of the closure handed to both stores, with the transition and its cause |
| `Breakers.MemStore.Record` | internal/breaker/breaker.go:311-356 | the stored record and transition of one reported outcome, other keys untouched |
| `Breakers.MemStore.AbandonProbe` | internal/breaker/breaker.go:358-377 | the stored record once a probe is handed back |
| `Breakers.ReportMeans` | internal/breaker/breaker.go:319-334 | on a tier that is not closed only the probe's outcome counts: a success closes it with its trips remembered and its counters at zero, a failure opens it for min(Cooldown * 2^trips, MaxCooldown) |
| `Breakers.HandBackFreesProbe` | internal/breaker/breaker.go:358-377 | after a hand-back the next request is the probe exactly when it is forced or either of the two came past the cooldown |
| `Breakers.CooldownClosedForm` | internal/breaker/breaker.go:466-473 | the doubling loop's n-th cooldown is min(Cooldown * 2^(n-1), MaxCooldown) |
| `Breakers.EveryRecordKeepsItsHistory` | internal/breaker/breaker.go:311-377 | over every run with fixed positive settings, in whatever order clocks were read: each opening in a row of trips has the doubled and capped cooldown, Trips is the length of the row, and while closed Consecutive is the trailing run of failures and below Failures, and the window counters count the outcomes of the window that began at WindowStart, in the order stored |
| `Breakers.WindowByTheClock` | internal/breaker/breaker.go:335-344 | for every list of outcomes, those since the current window's start are at most those the counter counts, and as many exactly when none of these was read before the start |
| `Breakers.WindowCountsSinceItsStart` | internal/breaker/breaker.go:335-344 | the same of both window counters over every run, in whatever order clocks were read |
| `Breakers.EarlyOutcomeIsNotSince` | internal/breaker/breaker.go:335-344 | an outcome read before the start of the window it is counted in is counted and is not since the start |
| `Breakers.OrderedClocksCountAll` | internal/breaker/breaker.go:335-344 | if clocks were read in the order stored, the window counters count all outcomes since WindowStart |
| `Breakers.ClosesOnlyByProbeOrRelease` | internal/breaker/breaker.go:319-333 | open or half-open becomes closed only by a successful probe or a release, and the transition says which |
| `Breakers.ForceThenAbandonRestores` | internal/breaker/breaker.go:263-272 | on every reachable open record, forcing a probe and handing it back gives the record again exactly when the hand-back comes before open-until |
| `Breakers.GrantsAreALeaseApart` | internal/breaker/breaker.go:65-84 | in every run, in whatever order clocks were read, two grants with no settlement between them are at least a lease apart, forced or not |
| `Breakers.AtMostOneProbe` | internal/breaker/breaker.go:111-122 | in every run in which each probe is settled within its lease, at most one probe is ever out |
| `Breakers.FirstProbeWaits` | internal/breaker/breaker.go:74-84 | in every run, from a trip until the first probe since, a request is turned away and told when the cooldown ends exactly if it is not forced and made before then; otherwise it is the probe |
| `Breakers.CooldownHolds` | internal/breaker/breaker.go:74-84 | with clocks read in order, a tripped tier turns away every request made before its cooldown ends unless one is forced or the tier released |
| `Breakers.LaterProbesExactly` | internal/breaker/breaker.go:234-272 | after a probe since the trip, and in any clock order, an unforced request inside the cooldown is a probe exactly when the last probe was lost or was handed back each time at a clock past the cooldown |
| `Breakers.ProbeInsideCooldown` | internal/breaker/breaker.go:234-272 | with clocks read in order, exactly when the last probe was not handed back and its lease has run out |
| `Breakers.LostProbeInsideCooldown` | internal/breaker/breaker.go:65-84 | a run in which an unforced request is let through inside the cooldown |
| `Breakers.TripsExactly` | internal/breaker/breaker.go:335-354 | over every run an outcome trips a closed tier exactly when it is a failure that completes a full row of failures or leaves the window's error rate exceeded, with the first of these as reason |
| `BreakerStores.EveryInterleavingIsAtomic` | internal/breaker/breaker.go:597-660 | whatever the interleaving of replicas, the shared records are those of an atomic store serving the logged requests in order; each returned answer is logged once and is the atomic store's answer at its place |
| `BreakerStores.MoveIsStored` | internal/breaker/breaker.go:263-272 | a request stores and reports a move to half-open exactly when its caller is given the probe |
| `BreakerStores.EachProbeHasOneHolder` | internal/breaker/breaker.go:252-285 | each stored and reported move to half-open gives the probe to exactly one caller, and each caller told it holds the probe made exactly one such move |
| `BreakerStores.RealTimeOrder` | internal/breaker/breaker.go:628-656 | the log only grows, and a call that returned before another started comes before it in the atomic order |
| `BreakerStores.SharedRecordIsARun` | internal/breaker/breaker.go:576-583 | each shared record is the result of an atomic run on its key |
| `BreakerStores.SharedRecordKeepsItsHistory` | internal/breaker/breaker.go:311-377 | whatever the interleaving and the order of clock readings, a shared record has the cooldowns, trips and counters its history gives it, and its window counters are by the clock what they are in any run |
| `BreakerStores.SharedGrantsAreALeaseApart` | internal/breaker/breaker.go:65-84 | whatever the interleaving and the order of clock readings, two stored moves to half-open with no settlement stored between them are a lease apart |
| `BreakerStores.SharedFirstProbeWaits` | internal/breaker/breaker.go:234-304 | whatever the interleaving and the order of clock readings, from a stored trip until the first probe stored since, a call that returned was told to skip, and until when, exactly if it was not forced and made before the cooldown ended; otherwise it got the probe |
| `BreakerStores.FiveAttemptsAtMost` | internal/breaker/breaker.go:607-633 | whatever the interleaving no call runs its transaction more than five times |
| `BreakerStores.GivesUpOnlyAfterFive` | internal/breaker/breaker.go:650-655 | a call gives up only when its fifth attempt too found the record changed since its watch |
| `StreamDecoders.YieldSplittingFinish` | internal/providers/sse_decode.go:221-231 | a finish reason on a chunk with a delta goes out on a chunk of its own after it |
| `StreamDecoders.Decode` | internal/providers/sse_decode.go:118-211 | the chunks yielded for a stream that ended cleanly, with usage coalesced or not |
| `StreamDecoders.SignalsRideAlone` | internal/providers/sse_decode.go:157-189 | a finish reason or usage report never shares a yielded chunk with a delta or with each other |
| `StreamDecoders.DeltasPassThrough` | internal/providers/sse_decode.go:108-117 | for every stream in either mode, role, text and tool deltas come out unchanged and in order; so do usage reports, of which coalescing keeps only the last |
| `StreamDecoders.FinishesOut` | internal/providers/sse_decode.go:200-204 | with coalesced usage as many finish reasons come out as went in, and one is made up exactly when there was none |
| `StreamDecoders.FinishesOutUncoalesced` | internal/providers/sse_decode.go:170-177 | with usage passed on as it comes all finish reasons come out, and one is made up exactly when none came by the first report, or by the end of a stream without one |
| `StreamDecoders.ExactlyOneFinish` | internal/providers/sse_decode.go:108-115 | in either mode, exactly when the promised one finish reason comes out |
| `StreamDecoders.LateFinishIsDoubled` | internal/providers/sse_decode.go:170-177 | a report before the upstream's one finish reason makes two come out |
| `AnthropicStreams.StreamWriter.CloseBlock` | internal/anthropic/stream.go:170-180 | closes the open block, if any, and nothing else |
| `AnthropicStreams.StreamWriter.EnsureToolBlock` | internal/anthropic/stream.go:149-168 | the open block is the delta's own tool block, opened after closing another |
| `AnthropicStreams.StreamWriter.WriteChunk` | internal/anthropic/stream.go:37-142 | the writer's fields and all events sent after one chunk |
| `AnthropicStreams.EveryStreamIsWellFormed` | internal/anthropic/stream.go:37-180 | for every upstream stream, decoded and written out, a strict client reads message_start, balanced blocks numbered from 0 with deltas only in the open one, holding exactly what the upstream meant; it ends with one message_delta with a stop reason and one message_stop exactly when there was a usage report |
| `AnthropicStreams.EndsAsReported` | internal/anthropic/codec.go:350-360 | for every stream with a usage report the message ends with the last report's tokens and the last finish reason in the protocol's words; without any, "tool_use" if the stream called tools and "end_turn" if not |
| `AnthropicStreams.UncoalescedStreams` | internal/anthropic/stream.go:108-138 | with usage passed on as it comes, a strict client reads a complete message exactly when no text, tool call or report follows the first report; otherwise it rejects |
| `AnthropicStreams.UncoalescedWithoutReport` | internal/anthropic/stream.go:108-138 | without a report it reads the same open message as with coalesced usage |
| `AnthropicStreams.TextConserved` | internal/anthropic/stream.go:68-107 | the client's text blocks hold all the text in order exactly when no chunk carried both text and tool calls |
| `AnthropicStreams.ArgumentsConserved` | internal/anthropic/stream.go:69-85 | whatever the order of deltas, no argument byte of any tool call is lost or reordered within its call |
| `AnthropicStreams.OneBlockIffContiguous` | internal/anthropic/stream.go:144-168 | each tool call gets one block exactly when its deltas are contiguous |
| `AnthropicStreams.ToolBlocksAreWhole` | internal/anthropic/stream.go:144-168 | then that block holds all of the call's arguments in order |
| `AttemptRaces.OutcomeSettlesOnce` | internal/httpapi/failover.go:178-206 | in every interleaving of timer, commits and return, the state leaves pending at most once |
| `AttemptRaces.CommitAnswersAgree` | internal/httpapi/failover.go:190-192 | commit gives the same answer to every call |
| `AttemptRaces.TimeoutMeansNothingSent` | internal/httpapi/failover.go:193-205 | the attempt is reported committed exactly when commit said yes, and a tier_timeout means no commit ever succeeds |
| `AttemptRaces.RaceGoesToFirst` | internal/httpapi/failover.go:178-196 | the state is decided by whichever of timer, commit and return comes first |
| `AttemptRaces.TimeoutExactly` | internal/httpapi/failover.go:193-205 | in every interleaving a call is reported as timed out exactly when it failed, the timer had won before it came back and the client was still there; otherwise with its own error, or none |
| `StreamAttempts.StreamAttempt.Emit` | internal/httpapi/exec.go:297-312 | the sink has seen nothing, or one begin and then what passed the filter, in order |
| `StreamAttempts.StreamAttempt.OnChunk` | internal/httpapi/exec.go:313-328 | a chunk passes the filter and is sent or held, with nothing lost; under a budget a chunk starts the response exactly when it has text or a tool call |
| `StreamAttempts.StreamAttempt.Run` | internal/httpapi/exec.go:288-343 | whatever fails, the sink sees nothing or one begin and an in-order prefix of the filtered chunks; a clean end delivers all of them; an attempt that fails before any text or tool call, under a budget, has asked for no commit and shown nothing |
| `StreamAttempts.TimeoutMeansSilence` | internal/httpapi/failover.go:178-206 | in every interleaving, of an attempt reported as timed out or not committed the sink sees nothing, then or later |
| `StreamAttempts.FilteringIsPushing` | internal/httpapi/exec.go:313-328 | until a finish reason makes the filter give up a possible start of a tag, it stands where one push of all the text leaves it and has given what that gives |
| `StreamAttempts.ClientGetsStrippedReply` | internal/httpapi/exec.go:313-333 | with thinking off, for every stream, the delivered text is the stripped text of what the upstream sent exactly when no finish reason does harm |
| `StreamAttempts.OneCutStream` | internal/httpapi/exec.go:316-318 | with one finish reason that comes while something is held back, exactly when the filter's state there and the text after it allow |
| `StreamAttempts.TextAfterCutDiffers` | internal/httpapi/exec.go:316-318 | a stream that fails it: a finish reason in the middle of the opening tag |
| `CutReplies.NoHarmExactly` | internal/httpapi/exec.go:313-333 | from any state of the filter and for any number of finish reasons, what is given is what is due exactly when each held-back start can go and what follows is read right |
| `CutReplies.PassesExactly` | internal/httpapi/thinking.go:25-73 | exactly when a filter outside any block drops nothing, however finish reasons come |
| `CutReplies.InsideKeeps` | internal/httpapi/thinking.go:32-41 | however finish reasons come, nothing leaves a block before its first closing tag |
| `CutReplies.OneCutExactly` | internal/httpapi/exec.go:316-318 | the condition for a single such finish reason, on the state and the text after it |
| `CutReplies.EndDoesNoHarm` | internal/httpapi/thinking.go:57-66 | a finish reason after which no text comes does no harm |
| `CutReplies.SpaceThenReply` | internal/httpapi/thinking.go:57-66 | white space let out before a reply that opens no block does no harm |
| `CutReplies.CutOpeningTag` | internal/httpapi/thinking.go:57-66 | a finish reason in the middle of the opening tag does harm |
| `CutReplies.CutClosingTag` | internal/httpapi/thinking.go:57-66 | one in the middle of the closing tag does, before any text that is not dropped anyway |
| `CutReplies.TrimPersists` | internal/httpapi/thinking.go:68-73 | one after a block and a start of a tag does, before text that begins with white space |
| `Executors.SoonestOpen` | internal/httpapi/failover.go:544-554 | the open tier with the least open-until, the lowest tier on a tie, whatever order the map is visited in |
| `Executors.Visit` | internal/httpapi/failover.go:380-513 | one target looked at under the rule book: skipped, marked, busy (and told so exactly when a capable, admitted, unmarked target had no slot), or called and settled |
| `Executors.ExecutePlan` | internal/httpapi/failover.go:314-542 | whatever the surroundings answer, the rule book is kept to the end, and exactly the targets that are due are looked at: the eligible ones of each try-order, in order, up to a call that ends the request; another round exactly after one that met a busy target, five at most, unless the client leaves; a pass forced on the soonest open tier exactly when no call was made, nothing was busy and a tier was open; at most five calls per target, at most one once a probe is forced |
| `Executors.FailoverExactly` | internal/httpapi/failover.go:469-513 | over a whole request: if every call failed in a way its policy passes on, uncommitted and with the client there, every eligible target of the first order was tried; after any other call nothing is tried, and the error is none for a call that came back or was served without one, the call's own for a committed failure or one the policy does not pass on, and the client's leaving for an uncommitted failure after it left |
| `Executors.EligibleExactly` | internal/httpapi/failover.go:374-379 | a pass may use exactly the targets not below the session's floor and, if forced, on the forced tier, each as often as it comes |
| `Executors.EveryCallIsJudged` | internal/httpapi/failover.go:449-499 | over a whole request each tier is told of exactly the calls that say something of it: a success for each that committed or came back, a failure for each uncommitted one that failed in a way that counts with the client there |
| `Executors.ExhaustedExactly` | internal/httpapi/failover.go:524-542 | a request that no call ended fails with the worst it met (a failure, then a busy target, an open tier, a marked target, an incapable one), unless the client left while it waited |
| `Executors.AttemptsAreCalls` | internal/httpapi/failover.go:442-475 | the attempts reported are the calls made, less one that reported being served without a call |
| `Executors.LastResortIsTaken` | internal/httpapi/failover.go:355-370 | a request that made no call, met no busy target and was turned away by an open tier does not fail before a pass was forced |
| `Executors.EverySettledRunBalances` | internal/httpapi/failover.go:398-513 | over a whole request each slot is given back once with at most one out; a committing call is the last call and the reported target; settlements are grants plus the calls that held the probe, committed and reported being served without a call, so the two are equal exactly when there is none |
| `Executors.FloorRespected` | internal/httpapi/failover.go:374-376 | no call of a pinned request goes below its floor |
| `Executors.NothingAfterSpoken` | internal/httpapi/failover.go:501-511 | once a target has written to the client no other is looked at or called |
| `Executors.ForcedPassMeans` | internal/httpapi/failover.go:355-370 | a pass is forced only after no call and no busy target, on the tier that opens soonest of those the breaker turned the request away from |
| `Executors.ForcedCallsStayOnTier` | internal/httpapi/failover.go:377-379 | the calls after a pass was forced, at most one, go to the forced tier |
| `Executors.BreakerIsPlausible` | internal/breaker/breaker.go:297-304 | an admission that skips grants no probe, which is all the executor assumes |
| `Executors.SoonestIsUnique` | internal/httpapi/failover.go:544-554 | the forced tier does not depend on the order the map is visited in |
| `Executors.ServedAfterCommitSettlesTwice` | internal/httpapi/failover.go:460-475 | against calls that hold the probe, commit and then report being served without a call, every run that tries a target settles more probes than it was granted |
| `Limits.SumWindow` | internal/limits/limits.go:258-272 | the sum of the buckets that start inside the window, whatever order they are visited in |
| `Limits.SumWindows` | internal/limits/limits.go:255-274 | that sum for each enforced window |
| `Limits.PruningIsInvisible` | internal/limits/limits.go:276-311 | pruning changes no window's sum, now or at any later time |
| `Limits.PruneDropsTheOld` | internal/limits/limits.go:276-311 | pruning drops exactly the buckets that started more than a week and a bucket ago |
| `Limits.SumIsUsageSinceEdge` | internal/limits/limits.go:72-76 | the bucketed sum is the exact usage since the first bucket edge inside the window |
| `Limits.SumIsSandwiched` | internal/limits/limits.go:20-22 | the bucketed sum is at most the usage of the window and at least that of a window one bucket shorter |
| `Limits.Decide` | internal/limits/limits.go:131-152 | the first exhausted cap, windows before units, with its cap and sum; a pass exactly when there is none |
| `Limits.ExhaustedMeans` | internal/limits/limits.go:131-152 | a cap is met exactly when it is positive and the usage of the last five hours, day or week has reached it; dollars are reached when less than a millionth is left |
| `Limits.RefusalIsFirst` | internal/limits/limits.go:131-152 | a refusal names the first cap met: no shorter window has one, nor the same window in tokens, cost, audio or characters before it |
| `Limits.Limiter.Check` | internal/limits/limits.go:97-163 | the decision, the pruned hashes, and the reservation made in the current bucket exactly when wanted, capped, locked and allowed |
| `Limits.Limiter.Add` | internal/limits/limits.go:221-253 | every window's sum moves by the real usage less the reservation, in the reservation's own bucket; the other units in the current one |
| `Limits.AllowedPasses` | internal/limits/limits.go:136-139 | what Check allows, the shared state machine allows |
| `Limits.BucketsConserve` | internal/limits/limits.go:97-163 | in every interleaving each bucket is its settled usage plus its outstanding reservations |
| `Limits.OvershootIsOneReservation` | internal/limits/limits.go:78-96 | in every interleaving of lock-serialised reserving checks, adds and prunes, billed usage plus reservations in a capped window is the window's sum and at most max - 1 + R |
| `Dlp.OverlapsAny` | internal/dlp/dlp.go:217-224 | true exactly when some finding overlaps the span |
| `Dlp.Merge` | internal/dlp/dlp.go:328-356 | the ranked greedy choice, sorted by start: a part of the input, in which every dropped finding overlaps a kept one of lower priority number; or of the same and longer; or of the same and as long, starting no later |
| `Dlp.MergeIsInLine` | internal/dlp/dlp.go:328-356 | for every list of non-empty findings the result is sorted by start and no two overlap |
| `Dlp.MergeIsPart` | internal/dlp/dlp.go:347-355 | the result is a part of the input, multiplicities included |
| `Dlp.MergeAnswersAll` | internal/dlp/dlp.go:338-353 | every finding is kept or overlaps, by its offsets, a kept one whose label has a lower priority number; or the same and it is longer; or the same, as long, and it starts no later |
| `Dlp.NamedFindingsSurvive` | internal/dlp/dlp.go:196-214 | adding entropy candidates clear of the named findings drops no named finding |
| `Dlp.MergeIsIdempotent` | internal/dlp/dlp.go:328-356 | merging a merged list changes nothing |
| `Dlp.MergeIgnoresOrder` | internal/dlp/dlp.go:337-346 | the kept ranks and spans do not depend on the input order |
| `Dlp.MergeIgnoresOrderExactly` | internal/dlp/dlp.go:337-346 | the merge, labels included, is the same for every order of its input exactly when no two different findings share a span and rank that is kept |
| `Dlp.MergeKeepsFirst` | internal/dlp/dlp.go:338-353 | of all findings with one kept span and rank, the first listed is the first kept |
| `Sorting.SortIsStable` | internal/dlp/dlp.go:338-354 | the sort keeps the order of elements that tie |
| `Dlp.CoalesceAdjacent` | internal/dlp/dlp.go:265-283 | the runs of same-label findings with blank gaps, each one span |
| `Dlp.CoalescedShows` | internal/dlp/dlp.go:265-283 | the coalesced spans cover exactly the masked bytes and begin exactly at findings that continue no other |
| `Dlp.Redact` | internal/dlp/dlp.go:241-263 | the text rewritten byte by byte: each unmasked byte in order, and one marker where a run of findings begins |
| `Dlp.MaskedMeans` | internal/dlp/dlp.go:241-283 | a byte is swallowed exactly when it lies in a finding in the text or in a blank gap between neighbours of one label |
| `Dlp.MarkedMeans` | internal/dlp/dlp.go:241-283 | a marker stands exactly where a finding in the text starts that does not follow one of its own label over a blank gap |
| `LookupCaches.Cache.Look` | internal/lookupcache/lookupcache.go:87-108 | the entry is served exactly when it is younger than TTL, or younger than MaxStale while the cache is quiet; otherwise the database is asked, with the entry to fall back on exactly when it is younger than MaxStale |
| `LookupCaches.Cache.Settle` | internal/lookupcache/lookupcache.go:113-122 | a value is stored only in its own generation, a miss evicts, a failure changes nothing |
| `LookupCaches.Cache.FallBack` | internal/lookupcache/lookupcache.go:134-147 | the old answer is served exactly after a failed load, if usable and not purged since, and the cache goes quiet |
| `LookupCaches.Cache.Purge` | internal/lookupcache/lookupcache.go:150-162 | everything is dropped and the generation moves on |
| `LookupCaches.LatestProvides` | internal/lookupcache/lookupcache.go:113-122 | the entry a history leaves, said without recursion |
| `LookupCaches.EveryEntryIsCurrent` | internal/lookupcache/lookupcache.go:83-162 | in every interleaving an entry is held exactly when a load provides it: the last successful one whose Get looked after every purge, with no definitive miss since; it also started after every purge and its timestamp is not later than its start |
| `LookupCaches.UnloadedAnswersAreYoung` | internal/lookupcache/lookupcache.go:94-100 | in every interleaving an answer without a successful load is the entry the history left when the Get looked, younger than max(TTL, MaxStale) when it began |
| `LookupCaches.ServedExactly` | internal/lookupcache/lookupcache.go:87-100 | in every interleaving a Get is answered by the entry the history left when it looked, for good and without a load, exactly when that entry is younger than TTL, or younger than MaxStale before the end of a backoff begun by a failed refresh and not ended by a purge; every other Get asks and is never answered from the shelf |
| `LookupCaches.EveryGetLooked` | internal/lookupcache/lookupcache.go:87-92 | every Get looked at some step, so that is about all of them |
| `LookupCaches.QuietExactly` | internal/lookupcache/lookupcache.go:138-162 | in every interleaving the cache is quiet exactly within five seconds of a Get that fell back on its entry, with no purge since |
| `LookupCaches.FallsBackExactly` | internal/lookupcache/lookupcache.go:132-147 | in every interleaving a Get whose load ended falls back on its entry exactly when the load got no answer, the entry was younger than MaxStale and nothing was purged since it looked; otherwise it returns what the load returned |
| `LookupCaches.NoStaleAnswerAcrossPurge` | internal/lookupcache/lookupcache.go:138-147 | a stale answer is never served across a purge |
| `LookupCaches.OneLoadAtATime` | internal/lookupcache/lookupcache.go:109-123 | at most one load of a key is under way |
| `LookupCaches.StoredExactly` | internal/lookupcache/lookupcache.go:113-117 | in every interleaving a successful load is stored exactly when nothing was purged since its leading Get looked |
| `LookupCaches.StragglerIsNotStored` | internal/lookupcache/lookupcache.go:109-117 | a run in which the latest successful load begun after the last purge is not the one stored |
| `LookupCaches.JoinsAcrossPurge` | internal/lookupcache/lookupcache.go:109 | a run in which a Get after a purge is answered by a load begun before it |
| `LookupCaches.AnsweredFromBeforePurgeExactly` | internal/lookupcache/lookupcache.go:109-123 | in every interleaving a Get that looked after a purge is answered by a load begun before it exactly when one of its key could still be joined when the Get went for a load |
| `LookupCaches.QuietPurgeIsSeen` | internal/lookupcache/lookupcache.go:150-162 | if no load of the key can be joined when a purge happens, every later Get is answered by a load begun after it |
| `Affinity.Shared.RunPinScript` | internal/affinity/affinity.go:218-230 | the shared pin is raised unless it holds a later tier, renewed either way, and the tier held before is told |
| `Affinity.Store.LocalPin` | internal/affinity/affinity.go:160-180 | this replica's pin is raised and renewed; a sweep drops only pins that show nothing any more |
| `Affinity.Store.Noted` | internal/affinity/affinity.go:182-208 | after a call Redis did not answer it is left alone for five seconds, unless the caller had gone; an answer ends that |
| `Affinity.Store.Pinned` | internal/affinity/affinity.go:79-102 | the later of the local tier and, if Redis answers, the shared one |
| `Affinity.Store.Pin` | internal/affinity/affinity.go:107-126 | both pins raised as far as Redis carries it out, and whether the session moved |
| `Affinity.Store.Forget` | internal/affinity/affinity.go:130-148 | both pins dropped as far as Redis carries it out |
| `Affinity.SessionFloor` | internal/httpapi/session_affinity.go:16-33 | the pinned tier if the plan still reaches it or a later one; otherwise none, and a pin out of reach is forgotten |
| `Affinity.PinSession` | internal/httpapi/session_affinity.go:38-49 | pins exactly when affinity is on, there is a session, and a tier after the first served |
| `Affinity.PinsNeverMoveBack` | internal/affinity/affinity.go:160-180 | over every run a pin's cell shows at least every tier it was pinned to, while its pins last and nobody forgets it |
| `Affinity.ShownWasPinned` | internal/affinity/affinity.go:150-180 | over every run a cell shows only a tier it was pinned to, and only while that pin or a later one of its own lasts |
| `Affinity.SharedPinsAreSeenEverywhere` | internal/affinity/affinity.go:79-126 | with Redis reachable, Pinned on any replica is at least every tier pinned before by any replica |
| `Affinity.OwnPinsOutlastOutages` | internal/affinity/affinity.go:79-126 | through any outage, Pinned is at least every unexpired tier this replica pinned |
| `Affinity.OneTtlLasts` | internal/httpapi/session_affinity.go:45-46 | with one ttl for all pins of a session, a pin lasts that long whatever follows |
| `Affinity.PinIsRaises` | internal/affinity/affinity.go:107-126 | what Pin ensures is exactly a raise of the replica's own cell and, if carried out, of the shared one |
| `Affinity.PinLeavesOthers` | internal/affinity/affinity.go:160-180 | for any other session Pin is at most a sweep of the replica's cell |
| `Affinity.ForgetIsDrops` | internal/affinity/affinity.go:130-148 | what Forget ensures is exactly a drop of those cells |
| `Affinity.PinnedIsAnswer` | internal/affinity/affinity.go:79-102 | what Pinned returns is what the run theorems call the answer |
| `Affinity.PinThenPinned` | internal/affinity/affinity.go:79-126 | what one replica pins through Redis another sees while the pin lasts, and never less than what was shown before |
| `Routing.LessIsStrictWeak` | internal/routing/routing.go:418-434 | the least-cost comparison is a strict weak order in every mode |
| `Routing.TiesAreExact` | internal/routing/routing.go:436-448 | two ranks tie exactly when neither is less |
| `Routing.NotLessMeans` | internal/routing/routing.go:418-434 | a rank is not less than another exactly when the other may precede it by price, availability or both |
| `Routing.RotateTies` | internal/routing/routing.go:393-409 | each run of ties is rotated in place by itself |
| `Routing.OrderTierLcr` | internal/routing/routing.go:378-416 | a permutation of the tier in which price does not fall, availability does not rise, or no target below the threshold comes before one at or above it and price does not fall within either group, by mode; ties rotated by the tick |
| `Routing.OrderTier` | internal/routing/routing.go:343-369 | a tier in its strategy's order |
| `Routing.Ordered` | internal/routing/routing.go:327-341 | the tiers one after the other, each in its order |
| `Routing.LcrOrderIsSorted` | internal/routing/routing.go:371-377 | at every tick the least-cost order is a permutation of the tier's positions along which prices and availabilities run as the mode says |
| `Routing.LcrTierIsSorted` | internal/routing/routing.go:371-377 | the same of the targets: by price an earlier one is no dearer, by availability no less available, by both never below the threshold before one at or above it and no dearer within a group |
| `Routing.BusyTierIsSorted` | internal/routing/routing.go:348-361 | a target with more free slots comes first |
| `Routing.EveryTargetHasAGroup` | internal/routing/routing.go:393-400 | every target belongs to one contiguous group that holds all its ties |
| `Routing.GroupsKeepTheirPlaces` | internal/routing/routing.go:393-409 | at every tick a group's places hold exactly its members |
| `Routing.RotationIsFair` | internal/routing/routing.go:401-408 | in any k ticks in a row each of k tied targets leads its group exactly once |
| `Routing.TiersStayTogether` | internal/routing/routing.go:331-369 | each tier's targets are contiguous, all there, in priority order of tiers, and within the tier as its strategy promises: free slots do not rise, the tier rotated by the tick, or least cost |
| `Routing.OrderingPermutes` | internal/routing/routing.go:331-341 | the try-order is a permutation of the plan's targets |
| `Embeddings.Decode` | internal/openai/embeddings_client.go:44-51 | each vector placed at its reported index, later items over earlier ones |
| `Embeddings.FilledExactly` | internal/openai/embeddings_client.go:35-52 | every slot is filled exactly when the indexes are 0 to n-1, each once, and no vector is missing |
| `Embeddings.Accept` | internal/providers/openai_compat.go:157-172 | a response is accepted exactly when there is one item per input, the indexes are a permutation and no vector is missing; each slot then holds the one vector reported for it |

## Left out

- HTTP handlers, the admin API, OIDC, sessions, webhooks, SQL and migrations: plumbing around the core.
- JSON decoding, regular expressions, Shannon entropy and rune-level white space: chunks, findings and the blankness test are inputs.
- Redis transport errors in the breaker and limits, the breaker's fall-back to local state, and key expiry in Redis for those two.
- The breaker's Enabled flag and nil receivers: such a breaker admits everything.
- Emitted transitions after a failed `Record` update: one report per commit is stated for committed updates only.
- Lock expiry in the limits lock and checks that go on without a reservation because the lock was not won: `Limits.Limiter.Check` models the latter, the overshoot bound excludes it.
- A reservation that is never settled, as for a request blocked after its check: excluded from the overshoot bound by hypothesis.
- Unparseable fields in a usage hash, and the overflow of 64-bit counters.
- Errors from the decoder's yield and from the Anthropic writer's output, and streams that break mid-flight.
- Malformed upstream chunks, which the decoder drops before the point where the model starts.
- Metrics, fallback bookkeeping and logging in the executor; negative tier numbers, which the executor's marker for "not forced" would confuse.
- Provider.Acquire, Release and Free: counters whose use, not whose body, is the hard part; the executor's slot balance covers it.
- Unavailability marks, price and availability averages, and error classification tables: inputs to the executor and the routing order.
- The wrap of the 64-bit round-robin counter: ticks are natural numbers.
- Capture, ledger and webhook queues.
- Affinity.Store.LocalPin: the sweep is one map comprehension rather than a loop over the map.
