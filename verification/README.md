# memory-mosaic: the narrative pipeline, in Dafny

memory-mosaic has a group of AI "agents" (digital stand-ins of real people)
write one story together from their private memories. The story goes through
four phases:

1. Every agent extracts one memory fragment that fits the theme.
2. Every agent proposes a position for its fragment: opening, middle, climax
   or closing. The fragments are then sorted by position.
3. Every agent rewrites its fragment so that it joins its neighbours.
4. The fragments are composed into one Markdown narrative.

The story's status moves along
`waiting → extracting → negotiating → weaving → composing → completed`.
Pollers observe the story through an in-memory store.

This project models:

- the pipeline of `lib/orchestrator.ts`: `extractMemories`,
  `negotiateNarrative`, `weaveNarrative`, `runNarrative` and `seedDemoAgents`;
- the demo route `app/api/demo/route.ts`, which plays the same four phases
  from a table of prepared memories. It fills the places of missing real
  participants with "AI-completed" pieces;
- the in-memory store of `lib/store.ts`, including `matchAgentsForTheme`;
- `parseSSEStream` of `lib/secondme.ts`, which collapses a server-sent-event
  stream into text.

Modules:

- `Wrappers`: `Option` and `Result`.
- `Text`: the JavaScript string operations the code uses, such as `slice`,
  `split`, `join`, `trim`, `toLowerCase` and number rendering.
- `Sorting`: the stable `Array.prototype.sort` by an integer key, as an
  insertion sort on values. The module proves the result is a permutation,
  is sorted, is stable, and is the unique stable sort.
- `Records`: the `Agent`, `MemoryFragment` and `Story` records. A `Patch` is
  an `updateStory` argument; `Apply` is the `{ ...s, ...updates }` merge.
- `Store`: the store as a class. It has the two maps, the insertion order of
  their keys (which `Map.values()` iterates in), and a ghost log of every
  `updateStory` call.
- `Sse`: the stream parser.
- `Orchestrator`: the four phases and `runNarrative`.
- `Demo`: the demo route.

The remote agent calls are parameters of the model:

- the structured `act` call for extraction;
- the structured `act` call for proposals;
- the free-form `chat` call for weaving.

Each call is a function from the agent and the message sent to a parsed reply
or a failure. So every success branch and every `catch` branch of the source
is modelled, for every reply whose fields are strings or absent. `Date.now()` and `Math.random()` are
inputs too (`Clock`, `now`).

In these places the code behaves in ways a reader might not expect; the
model follows the code:

- Extraction results keep the order of the agents, because
  `Promise.allSettled` keeps input order. They are not in completion order.
- `createStory` overwrites a story with the same id instead of rejecting it.
- `runNarrative` writes the story once per phase, not once per participant.
- When a proposal call fails, only the position is set to `middle`. The
  connection and transition fields are left as they were.
- With no participants, the fragments are left as they were.
- The demo's `realPieceCount` is clamped to the number of stored agents, not
  to the target of five. It can exceed `targetPieceCount`
  (`Demo.RealPieceCountUncapped`).
- `parseSSEStream` does not stop at `[DONE]` (`Sse.DoneDoesNotStop`).
- `parseSSEStream` splits lines chunk by chunk, so an event line cut inside
  its `data: ` prefix, across two chunks, is lost
  (`Sse.EventCutAcrossChunksIsLost`).

One of them is a bug, described under "Findings": the negotiation sort gives
`opening` the same rank as `middle`. The model sorts by that comparator as
written (`Rank`) everywhere the code sorts. The evidently intended key
(`IntendedRank`), which puts `opening` first, is modelled beside it, with the
input that tells the two apart and a proof that on the demo's own table both
keys give the same order.

## Model

| member | source | states |
|---|---|---|
| Text.Take | lib/orchestrator.ts:102 | `slice(0, n)` gives a prefix of length min(n, length) |
| Text.Split | lib/secondme.ts:155 | `split('\n')` never gives an empty list, and no piece contains the separator |
| Text.JoinSplit | lib/secondme.ts:155 | joining the pieces of a split with the separator gives back the original string |
| Text.Words | lib/store.ts:83 | the pieces of the white-space split contain no white space |
| Text.Trim | lib/secondme.ts:159 | `trim()` is never longer, and neither starts nor ends with white space |
| Text.TrimIsPiece | lib/secondme.ts:159 | `trim()` keeps one contiguous piece of the input, the one after the leading white space |
| Text.TrimCutsLeadingSpace | lib/secondme.ts:159 | everything cut off before that piece is white space |
| Text.TrimCutsTrailingSpace | lib/secondme.ts:159 | everything cut off after that piece is white space |
| Text.Lower | lib/store.ts:82 | `toLowerCase()` as far as modelled: lowers the ASCII letters and keeps every other character, so the length is kept |
| Text.NatToString | lib/orchestrator.ts:216 | a count renders as decimal digits, with no leading zero unless the count is 0 |
| Text.DecimalRoundTrip | lib/orchestrator.ts:216 | the rendering of a count reads back as that count |
| Sorting.Insert | lib/orchestrator.ts:134-136 | one insertion step of the sort adds exactly the inserted element |
| Sorting.InsertSorted | lib/orchestrator.ts:134-136 | inserting into a sorted list keeps it sorted |
| Sorting.SortByKey | lib/orchestrator.ts:134-136 | the sort returns a permutation of its input, of the same length, with keys never decreasing |
| Sorting.SortTwo | lib/orchestrator.ts:134-136 | two elements are swapped exactly when the second has the smaller key |
| Sorting.SortByKeyStable | lib/orchestrator.ts:134-136 | stability: the elements with any one key keep their relative order |
| Sorting.SortByKeyOfSorted | lib/orchestrator.ts:134-136 | sorting an already sorted list changes nothing |
| Sorting.SortedUnique | lib/orchestrator.ts:134-136 | two sorted lists with the same elements per key, in the same order, are equal, so the stable sort has only one possible result |
| Records.Stage | lib/store.ts:18 | the lifecycle positions: waiting is first, completed is last, and there are six |
| Records.Apply | lib/store.ts:63-66 | the spread merge replaces exactly the fields the update carries and keeps all others |
| Records.ApplyMerge | lib/store.ts:63-66 | two successive updates equal one update in which the later write wins field by field |
| Records.ApplyIdempotent | lib/store.ts:63-66 | repeating an update changes nothing |
| Records.ApplyAllStatus | lib/store.ts:63-66 | after a series of updates, the status is the last one written, or the old one if none was written |
| Records.ApplyAllKeepsIdentity | lib/store.ts:63-66 | updates never change the id, theme, description, initiator, participants or creation time |
| Records.ApplyAllAppend | lib/store.ts:63-66 | two consecutive series of updates act as the first followed by the second |
| Records.StatusesWrittenAppend | lib/store.ts:63-66 | the statuses written by two consecutive series are those of the first followed by those of the second |
| Records.Or | lib/orchestrator.ts:77-81 | `v \|\| d` is `v` when `v` is present and non-empty, otherwise `d`; it is never empty when `d` is not empty |
| Store.ValuesInOrder | lib/store.ts:59 | `Array.from(map.values())` lists one value per key, in insertion order |
| Store.Database.constructor | lib/store.ts:54-55 | the store starts with no agents, no stories and no writes |
| Store.Database.GetAgent | lib/store.ts:57 | finds an agent exactly when its id is stored, and returns that agent |
| Store.Database.UpsertAgent | lib/store.ts:58 | stores the agent under its id and leaves everything else alone. A new id goes last in the iteration order; a replaced id keeps its place |
| Store.Database.AllAgents | lib/store.ts:59 | lists the stored agents in insertion order; an agent is listed exactly when it is stored under its own id |
| Store.Database.GetStory | lib/store.ts:61 | finds a story exactly when its id is stored, and returns that story |
| Store.Database.CreateStory | lib/store.ts:62 | stores the story under its id, overwriting any story with that id, and leaves the agents and the write log alone |
| Store.Database.UpdateStory | lib/store.ts:63-66 | a stored story becomes the merge of the old story with the update; with an unknown id the stories are unchanged; the write is logged either way |
| Store.Database.AllStories | lib/store.ts:67-69 | lists every stored story exactly once, with creation time never increasing, and nothing else; stories created at the same time keep their insertion order |
| Store.NewestFirstStable | lib/store.ts:67-69 | sorting newest first keeps the stories of each creation time in their earlier order |
| Store.NewestFirstFacts | lib/store.ts:67-69 | sorting the stored stories by `b.createdAt - a.createdAt` gives such a newest-first listing |
| Store.Candidates | lib/store.ts:79 | the candidates are exactly the stored agents whose id differs from the initiator's |
| Store.ScoreOf | lib/store.ts:86-94 | an agent's score is at least 1 |
| Store.ScoreAppend | lib/store.ts:89-93 | the score adds up word by word over the theme's words |
| Store.ScoreIgnoresShortWords | lib/store.ts:90 | words shorter than two characters never change a score |
| Store.ScoreAgent | lib/store.ts:86-94 | the nested loops compute the agent's score: 1, plus 3 per tag related to a word, plus 1 per word found in the memories |
| Store.ScoreAll | lib/store.ts:85-95 | every candidate is paired with its own score, in order |
| Store.SliceEnd | lib/store.ts:98 | `slice(0, maxAgents)` keeps `maxAgents` items when that is between 0 and the length, the whole list when it is larger, all but the last `-maxAgents` items when it is negative, and none when it is more negative than the length |
| Store.RankingOrdered | lib/store.ts:97-98 | the scored candidates are sorted stably by score, highest first, and the matches are the agents of the first `maxAgents` of them |
| Store.MatchesSound | lib/store.ts:79-98 | each match is a stored agent other than the initiator; there are at most `maxAgents` matches; there are none when only the initiator is stored |
| Store.Database.MatchAgentsForTheme | lib/store.ts:73-99 | the method computes those matches: stored agents, never the initiator, at most `maxAgents`, best score first |
| Sse.LineText | lib/secondme.ts:158-167 | a line adds text exactly when it starts with `data: `, its trimmed payload is not `[DONE]`, and the payload yields non-empty content; the text it adds is then that content |
| Sse.ParseSSEStream | lib/secondme.ts:145-173 | the loops return the text of every event line of every chunk, in order; an empty stream gives the empty string |
| Sse.StreamTextAppend | lib/secondme.ts:150-170 | the text of a stream is the text of its first chunks followed by the text of the rest |
| Sse.LinesTextAppend | lib/secondme.ts:157-169 | within a chunk, the text of consecutive lines is the text of the first lines followed by the text of the rest |
| Sse.DoneDoesNotStop | lib/secondme.ts:160 | a `data: [DONE]` line adds nothing, and the lines after it still count |
| Sse.DoneLineSilent | lib/secondme.ts:160 | the `data: [DONE]` line alone adds nothing |
| Sse.SilentLinesAddNothing | lib/secondme.ts:158-167 | non-event lines, `[DONE]` lines and malformed or empty payloads add nothing and raise no error |
| Sse.SplitWithoutSeparator | lib/secondme.ts:155 | a chunk without a newline is one line |
| Sse.NoEventChunkSilent | lib/secondme.ts:155-158 | a chunk holding one non-event line adds nothing |
| Sse.EventCutAcrossChunksIsLost | lib/secondme.ts:154-155 | an event line cut inside its `data: ` prefix (after `dat`) and delivered in two chunks adds nothing, whatever its payload |
| Orchestrator.FindAgent | lib/orchestrator.ts:108 | `agents.find` returns a listed agent with the id, or nothing only when no agent has the id |
| Orchestrator.FindAgentFirst | lib/orchestrator.ts:108 | the agent found is the first one with the id |
| Orchestrator.Contribution | lib/orchestrator.ts:71-82 | a reply yields a fragment exactly when it parsed and reports a memory. The fragment carries the agent's id, name and avatar and the reply's title, content, time hint and unique detail, each the empty string when missing or empty, and its emotion, `reflective` when missing or empty. It carries none of the later fields |
| Orchestrator.ExtractMemories | lib/orchestrator.ts:57-94 | the loop gathers every agent's contribution, in the order of the agents |
| Orchestrator.ExtractionAppend | lib/orchestrator.ts:89-92 | extracting for two lists of agents gives the fragments of the first followed by those of the second |
| Orchestrator.ExtractionSound | lib/orchestrator.ts:57-94 | there are at most as many fragments as agents, and each is the contribution of some agent that reported a memory |
| Orchestrator.ProposalEffect | lib/orchestrator.ts:107-128 | a proposal changes only the three negotiation fields. It leaves a fragment without a listed teller unchanged, sets `middle` when the call fails, and otherwise sets the reply's position (`middle` when missing or empty) and its connection and transition (the empty string when missing) |
| Orchestrator.ProposalsAt | lib/orchestrator.ts:105-128 | the i-th fragment before the sort is the i-th input fragment after its own teller's proposal, with the summary of all fragments |
| Orchestrator.ProposeOne | lib/orchestrator.ts:108-127 | one proposal call, success or `catch`, gives that fragment's proposal |
| Orchestrator.RankValues | lib/orchestrator.ts:133-135 | the sort key as the comparator computes it: `climax` ranks 2, `closing` ranks 3, and everything else ranks 1, `opening` included, so `opening` ranks like `middle` |
| Orchestrator.IntendedRankValues | lib/orchestrator.ts:133 | the key the lookup table is meant to give: `opening` 0, `climax` 2, `closing` 3, anything else 1 |
| Orchestrator.OpeningNotFirst | lib/orchestrator.ts:133-136 | with the comparator as written, an `opening` fragment after a `middle` fragment stays behind it; the intended key swaps them |
| Orchestrator.IntendedNegotiation | lib/orchestrator.ts:96-139 | negotiation with the intended key is a rearrangement of the same proposals |
| Orchestrator.OpeningFirst | lib/orchestrator.ts:133-136 | after the sort by the intended key, every `opening` fragment precedes every other fragment |
| Orchestrator.NegotiateNarrative | lib/orchestrator.ts:96-139 | the result is the stable sort, by the comparator as written, of every fragment after its teller's proposal |
| Orchestrator.NegotiationOrdered | lib/orchestrator.ts:96-139 | negotiation neither drops nor duplicates fragments, orders them by the comparator as written, keeps equal ranks in their earlier order, and changes only the negotiation fields |
| Orchestrator.NeighboursAt | lib/orchestrator.ts:153-154 | a fragment has a previous neighbour exactly when it is not first and a next one exactly when it is not last; these are the adjacent fragments |
| Orchestrator.WeaveNarrative | lib/orchestrator.ts:141-175 | the loop gives every fragment its woven form, in place, with neighbours taken from the negotiated list |
| Orchestrator.WeavingEffect | lib/orchestrator.ts:146-171 | weaving sets only `refinedContent`. It leaves a fragment without a listed teller unchanged, falls back to the original content when the call fails, and otherwise keeps the first 300 characters of the reply |
| Orchestrator.Body | lib/orchestrator.ts:211 | a block shows the rewrite when it is present and non-empty, otherwise the original content |
| Orchestrator.PartsAreJoinedBlocks | lib/orchestrator.ts:210-216 | concatenating the parts, each but the last ending with a divider, equals joining the blocks with the divider |
| Orchestrator.ComposeShape | lib/orchestrator.ts:216 | the final narrative is non-empty and starts with `# ` and the theme, followed by the subtitle that gives the number of fragments twice |
| Orchestrator.HeadingStartsWithTheme | lib/orchestrator.ts:216 | the heading starts with `# ` and the theme |
| Orchestrator.ComposeCredits | lib/orchestrator.ts:216 | the final narrative ends with the credits line, which starts with the closing divider and the number of fragments |
| Orchestrator.Participants | lib/orchestrator.ts:183-185 | every participant is the stored agent of one of the story's ids, there are none exactly when no id is stored, and there are at most as many as ids |
| Orchestrator.ParticipantsSingle | lib/orchestrator.ts:183-185 | one id gives its stored agent, or nothing when it is not stored |
| Orchestrator.ParticipantsAppend | lib/orchestrator.ts:183-185 | the participants of two lists of ids are those of the first followed by those of the second, so the order of the ids is kept |
| Orchestrator.ParticipantsComplete | lib/orchestrator.ts:183-185 | every stored id among the story's ids contributes its agent |
| Orchestrator.RunNarrative | lib/orchestrator.ts:179-224 | with an unknown story id the run fails with "Story not found" and writes nothing. Otherwise it makes exactly the writes of the pipeline to that story, logged in order, and changes no agent |
| Orchestrator.LifecycleOrdered | lib/orchestrator.ts:197-222 | the statuses the phases write move strictly forward through the lifecycle |
| Orchestrator.NarrativeStatuses | lib/orchestrator.ts:187-222 | a run writes `completed` alone when there are no participants, otherwise extracting, negotiating, weaving, composing, completed, strictly forward |
| Orchestrator.PhaseStatuses | lib/orchestrator.ts:197-222 | the five phase writes carry the five statuses after `waiting`, in order |
| Orchestrator.NarrativeOutcome | lib/orchestrator.ts:179-224 | after a run the story is completed, with a completion time and a non-empty narrative, and keeps its identity. Without participants it holds the apology; with participants its fragments are the woven, negotiated extraction |
| Orchestrator.DemoRoster | lib/orchestrator.ts:231-282 | the demo roster holds five agents with distinct ids |
| Orchestrator.UpsertAllEffect | lib/orchestrator.ts:283 | upserting a roster stores every roster agent under its id, adds no other key, and keeps every other agent |
| Orchestrator.UpsertRoster | lib/orchestrator.ts:283 | the loop upserts the roster agent by agent; new ids join the iteration order in roster order |
| Orchestrator.SeedDemoAgents | lib/orchestrator.ts:228-284 | seeding upserts the five demo agents and touches no story |
| Demo.PresetFor | app/api/demo/route.ts:27-83 | the prepared-memory table has an entry exactly for the five canonical ids |
| Demo.CanonicalDistinct | app/api/demo/route.ts:86 | the canonical order names five distinct ids |
| Demo.PresetPosition | app/api/demo/route.ts:179 | a fragment's position from the table is never empty (`middle` by default) |
| Demo.PresetPositions | app/api/demo/route.ts:27-83 | the table proposes opening, middle, middle, climax, closing along the canonical order |
| Demo.PresetRewrites | app/api/demo/route.ts:27-83 | every prepared memory carries a non-empty rewrite |
| Demo.CompleteByPositions | app/api/demo/route.ts:27-86 | a table with those positions and rewrites is complete: it ranks the canonical ids in narrative order |
| Demo.TableComplete | app/api/demo/route.ts:27-86 | the demo's own table is complete |
| Demo.ClampedCount | app/api/demo/route.ts:100 | `Math.max(1, Math.min(count, stored))`: always at least 1; the request when it lies in range; 1 below the range; the number of stored agents (at least 1) above it |
| Demo.PassSkip | app/api/demo/route.ts:127-131 | an id of the wrong kind, or without a stored agent or a prepared memory, adds no fragment |
| Demo.PassTake | app/api/demo/route.ts:133-145 | any other id adds the fragment built from its agent and its prepared memory |
| Demo.PassFlags | app/api/demo/route.ts:127-168 | each pass yields only fragments of its own kind: real ids unflagged, others flagged as AI-completed |
| Demo.ExtractionRealFirst | app/api/demo/route.ts:126-168 | every extracted fragment is flagged, is AI-completed exactly when its id is not real, and has a canonical id; no real fragment follows an AI-completed one |
| Demo.RealPass | app/api/demo/route.ts:127-146 | when every agent and memory is present, the real pass yields the first `count` canonical fragments |
| Demo.AiPass | app/api/demo/route.ts:149-168 | the AI pass yields the remaining canonical fragments, names suffixed |
| Demo.ExtractionOfAllStored | app/api/demo/route.ts:126-168 | with the demo agents stored and a complete table, extraction yields the five canonical fragments, the first `count` real and the rest AI-completed |
| Demo.Negotiated | app/api/demo/route.ts:174-183 | the demo's negotiation sets only the three negotiation fields: the position is the table's (`middle` when missing or empty), and the connection and transition are the table's, or empty when the table has no entry |
| Demo.NegotiationKeepsCanonicalOrder | app/api/demo/route.ts:185-189 | with a complete table, the sort leaves canonical-order fragments where they are |
| Demo.IntendedRankNegotiated | app/api/demo/route.ts:174-188 | the intended key of a negotiated fragment is that of the table's position for its teller |
| Demo.IntendedTableRanks | app/api/demo/route.ts:185-188 | on a table proposing opening, middle, middle, climax, closing, the intended key ranks the canonical ids in narrative order |
| Demo.IntendedKeyKeepsCanonicalOrder | app/api/demo/route.ts:185-189 | on such a table, sorting by the intended key also leaves canonical-order fragments where they are |
| Demo.DemoTableIntendedKeyAgrees | app/api/demo/route.ts:185-189 | on the demo's own table, the intended key and the comparator as written give the same negotiation order |
| Demo.Refined | app/api/demo/route.ts:196-199 | weaving sets only `refinedContent`: the table's rewrite when it has a non-empty one, otherwise the fragment's own content |
| Demo.CountsAddUp | app/api/demo/route.ts:206-207 | real and AI-completed counts add up to the number of fragments |
| Demo.CountsOfSplit | app/api/demo/route.ts:206-207 | with the first `m` fragments real and the rest AI-completed, the counts are `m` and the rest |
| Demo.Percent | app/api/demo/route.ts:215 | `Math.round(real / total * 100)` is the integer nearest to 100·real/total, rounding halves up, and never exceeds 100 |
| Demo.PercentOfFive | app/api/demo/route.ts:215 | out of five pieces the percentage is 20 per real piece |
| Demo.DemoNarrativeShape | app/api/demo/route.ts:217-227 | the demo narrative starts with `# ` followed by the theme |
| Demo.SnapshotsGrow | app/api/demo/route.ts:145 | the extraction's i-th write stores the first i+1 fragments and writes no status |
| Demo.ClosingStatuses | app/api/demo/route.ts:171-234 | the later phases write negotiating, weaving, composing, completed, in order |
| Demo.PlaybackStatuses | app/api/demo/route.ts:123-234 | the whole playback writes the five lifecycle statuses after `waiting`, in order |
| Demo.DemoStatuses | app/api/demo/route.ts:123-234 | the demo's statuses move strictly forward through the lifecycle |
| Demo.PieceCountsKept | app/api/demo/route.ts:112-113 | no update changes the target or real piece counts |
| Demo.DemoOutcome | app/api/demo/route.ts:170-234 | after playback the story is completed at the given time, holds the woven fragments and the demo narrative, and keeps its identity and piece counts |
| Demo.DemoPlayback | app/api/demo/route.ts:126-215 | with `count` real pieces, the five woven fragments follow the canonical order. The first min(count, 5) are real and the rest carry the AI suffix. Each has the table's content and rewrite, and the percentage is 20 per real piece |
| Demo.PlayedAt | app/api/demo/route.ts:134-199 | the i-th woven fragment has the i-th canonical id, its agent's name (suffixed when AI-completed) and its prepared content and rewrite |
| Demo.RealPieceCountUncapped | app/api/demo/route.ts:100-113 | the real fragments number min(realPieceCount, 5), yet realPieceCount exceeds the target of 5 when more than five agents are stored and more are requested |
| Demo.ExtractedState | app/api/demo/route.ts:123-168 | after the extraction writes, the story is `extracting` with all fragments found so far |
| Demo.Push | app/api/demo/route.ts:134-145 | appending a fragment writes the whole grown list to the story and logs that write |
| Demo.ExtractionPass | app/api/demo/route.ts:127-168 | one pass over the canonical ids appends that pass's fragments and logs one snapshot per fragment |
| Demo.ClosingApplied | app/api/demo/route.ts:171-234 | the later phases leave the story completed, with the woven fragments, the narrative and the completion time |
| Demo.LaterPhases | app/api/demo/route.ts:170-234 | the negotiation, weaving and composition writes, logged in order, applied to the story |
| Demo.PlayBack | app/api/demo/route.ts:120-243 | the whole playback makes exactly the demo's writes to the story, logged in order, and changes no agent |
| Demo.SeededAllStored | app/api/demo/route.ts:96-97 | after seeding, every canonical id has a stored agent among all agents |
| Demo.DemoPost | app/api/demo/route.ts:88-246 | a missing or empty theme gives 400 with the error message and changes nothing. Otherwise the route seeds the agents and stores the new story with all the playback's writes applied and logged, then returns its id |

## Left out

- Network calls, HTTP status handling and JSON parsing of the agent replies: the replies are given by the `extract`, `propose` and `chat` parameters as parsed values or failures; the fence stripping before `JSON.parse` is part of what those parameters stand for.
- The HTTP wrappers of `lib/secondme.ts` other than `parseSSEStream` are not part of this model: they are the remote calls that the parameters stand for.
- Reading the stream and decoding bytes: `ParseSSEStream` takes the already-decoded chunks; a multi-byte character split between chunks is not modelled.
- `delta`: reading `choices[0].delta.content` from an event's JSON is a parameter; a non-string content value is modelled only as absent or as a string.
- Concurrency: the extraction and proposal calls run one after another in agent order. `Promise.allSettled` keeps that order, and each proposal writes only its own index, so interleaving does not change the result.
- The demo's fire-and-forget playback and its `sleep` pauses run to completion before `DemoPost` returns. A poller can still see every intermediate state, through the ghost write log.
- The demo's `catch` branch (lines 235-241) is not modelled: nothing in the modelled playback can throw.
- `Date.now()` and `Math.random()` are the `Clock` and `now` inputs; the random id suffix is a given string.
- Strings are sequences of characters, not UTF-16 code units: `slice(0, 60)` and `slice(0, 300)` count characters, and `toLowerCase` lowers ASCII letters only.
- Demo.Percent: computed on integers as the rounding of 100·real/total; the floating-point rounding of `Math.round` is not modelled.
- Agent-reply fields of the wrong JSON type (a numeric `memory_content`, say) are not modelled: `ExtractReply` and `ProposalReply` hold optional strings. In the source such a value is copied into the fragment (lib/orchestrator.ts:72-81), and `f.content.slice(0, 60)` at lib/orchestrator.ts:102, outside any `try`, then throws, so `runNarrative` rejects and leaves the story `negotiating`; the model's run always ends `completed`.
- Request fields of the wrong JSON type (a non-string theme, a non-integer `realAgentCount`) are not modelled: the request holds an optional string theme and an optional integer count.
- Sorting.SortByKey: the in-place `Array.prototype.sort` is modelled on values as a stable insertion sort by an integer key, which is what the comparator computes for every position except those below.
- Orchestrator.Rank: a position named like a property inherited from `Object.prototype` (`constructor`, `toString`, `__proto__`, ...) makes `posOrder[p]` a function or an object, so the comparator returns `NaN`, which the sort treats as "equal" and which makes the comparator inconsistent; the model ranks such a position 1, like any other unknown position.
- Store.Database.MatchAgentsForTheme: the tags and memories are lowered character by character; JavaScript's full Unicode case mapping is not modelled. The default `maxAgents = 6` of lib/store.ts:73 is the method's default parameter value.
- Text.Lower: lowers ASCII letters only. JavaScript's `toLowerCase` maps all of Unicode: it can change the length (`"İ"` lowers to two code units) and lowers a final sigma depending on its context. Neither is modelled.
- Records.Patch: carries only `status`, `fragments`, `finalNarrative` and `completedAt`, while `updateStory` accepts any `Partial<Story>`; every modelled call passes only these four fields.
- Demo.DemoPost: takes the prepared-memory table as a parameter, so that its contract holds for any table. The route's own table is `PresetFor`, whose completeness `TableComplete` proves.
- Authentication, sessions, credit accounting, the remaining API routes and all of the user interface are not part of this model.

## Findings

| source | as written | input that shows it | evidently intended | confidence | as-written member | corrected member |
|---|---|---|---|---|---|---|
| lib/orchestrator.ts:133-136 | the comparator ranks a fragment by `posOrder[p] \|\| 1`, and `0 \|\| 1` is 1, so `opening` ranks like `middle` | a `middle` fragment followed by an `opening` fragment: the sort leaves the `opening` fragment second | the table's own number for every named position, with 1 only for an unknown one: `opening` first | high, not executed | Orchestrator.OpeningNotFirst | Orchestrator.OpeningFirst |

The demo route repeats the same comparator (app/api/demo/route.ts:186-188).
Its table proposes `opening` only for the first canonical fragment, so there
the bug has no visible effect (`Demo.DemoTableIntendedKeyAgrees`).
