# headroom bench: cache simulator, rewriters, poster and diagnosis, verified

A model in Dafny of the parts of the repository whose claims are about whole runs:

- the prompt-cache simulator of `upstream-python/bench/cachesim.py`: bodies are flattened to segments, each
  request is split into read, written and fresh tokens against a dictionary of chained prefix digests, and
  reports are built on the bills;
- the request rewriters and stateful policies of `strategies.py` and `_splicesim.py`: marker placement under a
  budget of four, reasoning stripped behind a moving line, the offload gate with per-session memory, the
  turn-chained prefix splice;
- the idempotent poster of `contrib/offload-workers/review_post.py`, against a server where each write may land,
  fail, or land with the response lost, and runs may stop anywhere;
- the growth floor, the excess and the byte-offset search of `scripts/cache-ratio-diagnose.py`.

`dafny verify dfyconfig.toml` verifies all of it.

## How it is built

The simulator is proved to refine `PlainCache`, a map from (scope, actual prefix) to expiry with no digests and
no loops. Every statement about runs is then made over that map (`CacheRuns`) and reused: the reasoning arms and
the splice are each shown to produce requests that follow one another, so that "nothing is invalidated" becomes
"every turn reads exactly what the last one cached". The gated offload promises less: what is four or more
messages from the tail is frozen and keeps being read (`OffloadRuns.FrozenIsRead`), while nearer to it a turn may
still rewrite what the one before had cached (`OffloadTail.TailIsNotKept`). Code that updates state is a class or
a loop whose contract is a specification function, and the properties are lemmas about that function.

| module | models |
|---|---|
| `Wire`, `Flattening` | JSON bodies, `_blocks`, `flatten` |
| `PlainCache`, `CacheSim`, `CacheRuns` | the reference cache, the simulator that refines it, runs of either |
| `HeadScanner` | `_has_messages` and JSON text |
| `Markers`, `MarkerMoves`, `OverBudgetArm` | the marker-only strategies |
| `Reasoning`, `ReasoningRuns` | stripping reasoning with the markers in front of the cut |
| `Offload`, `OffloadCalls`, `OffloadRuns`, `OffloadTail` | the gated offload, its calls interleaved over sessions, and what the cache sees |
| `Rewriter` | the strategies as in-place rewriting |
| `Splice` | the turn-chained splice |
| `Poster`, `PosterRun` | the poster as events, and one run of it |
| `Diagnose`, `SeekWindow` | the growth floor, and the byte-offset search |
| `Reports` | streaming both arms, per-turn attribution |

`FlattenLaws`, `CacheLaws`, `MarkerLaws`, `ReasoningLaws`, `OffloadLaws`, `PosterLaws` and `ReportLaws` say what
each of these operations does to its input in literal terms - which block, which tier, which text, which thread -
without the functions that compute it.

Assumptions are parameters. The token estimator is any function of the block, at least 1 after rounding; the
running hash is any hash without collisions over (scope, segment list), and one exists; sha256 digests of tool
texts stand for the texts; times are non-negative reals wherever an absent entry (expiry 0) must read as
expired. Listings, write outcomes and thread ids are inputs of the poster, and reply and thread bodies are taken
with trailing white space already removed.

## What the code does otherwise than it says

- `_has_messages` compares key bytes, so a `messages` key spelled with an escape is answered "no", definitely,
  and the full parse is not consulted (`HeadScanner.EscapedKeyIsMissed`; exact condition in `AgreesWithParse`).
- `digests` in `_splicesim.py` promises one digest per message and yields one per block, which is then used as a
  message index (`Splice.SeveralBlocksReplayStale`; exact condition in `ReplayJustified`).
- `report_defects` says a turn's difference is split across buckets. "Prefix not read" carries the opposite sign
  of its share of the bill, so the parts do not add up (`Reports.CorpusIsMisreported`; exact condition in
  `PartsAddUp`).
- Fresh input is measured from the last breakpoint even when the read reached past it, so such a turn bills
  those tokens twice (`PlainCache.BilledTwice`; exact condition in `ExactConservation`).
- The poster's proof checks for current or legacy markers but then looks the note up under the current prefix
  only: a reply that exists only under the legacy prefix, on a thread the re-read shows, makes a run crash once it
  has posted whatever else it had to (`PosterRun.LegacyOnlyCrashes`, `LegacyServerCrashes`). Two posts of a draft
  that share a marker are both posted by one run (`Poster.SharedMarkerPostsTwice`; exact condition in
  `SafeDrafts`). `discussions` says it returns every discussion, but stops silently at a failed page; a run started
  from such a listing can open a thread twice (`Poster.ShortListingOpensTwice`; exact condition in
  `ListingDecides`).
- `_clear_message_markers` and `strip_system` pop `cache_control` whatever its value, while `flatten` treats
  only objects as markers and hashes anything else (`Markers.NullMarkerIsHashed`; exact conditions in
  `ClearingKeepsShape` and `StripSystemKeepsShape`).

## Model

| member | source | states |
|---|---|---|
| `Flattening.FlattenBody` | upstream-python/bench/cachesim.py:212-243 | walking the blocks and clearing the earliest markers gives `Flatten`: wire order, one text block for a string, markers out of the digest; the over-budget counters move by one request and to the worst count, exactly when more than four markers were asked for |
| `Flattening.Collect` | upstream-python/bench/cachesim.py:214-229 | the loop lists every marked segment, in order, and nothing else |
| `Flattening.ClearExtra` | upstream-python/bench/cachesim.py:236-242 | clearing all but the last four listed markers is `Trim`, which is stated by counting markers from each segment on |
| `Flattening.EarliestAreCleared` | upstream-python/bench/cachesim.py:236-242 | a segment loses its marker exactly when it is not among the last four marked ones |
| `Flattening.TrimBudget` | upstream-python/bench/cachesim.py:231-243 | however many markers a request asks for, min(asked, 4) survive |
| `Flattening.TrimWithinBudget` | upstream-python/bench/cachesim.py:236-242 | a request with four markers or fewer is untouched |
| `Flattening.TrimKeepsShape` | upstream-python/bench/cachesim.py:231-243 | trimming moves no token and changes no digest |
| `FlattenLaws.AllAreThere` | upstream-python/bench/cachesim.py:174-206 | as many segments as tools, system blocks and message blocks, a string counting as one |
| `FlattenLaws.ToolSegment` | upstream-python/bench/cachesim.py:189-230 | first the tools, in order: digest of role and block without its marker, max(1, estimate of the same) tokens, and the tier asked for, five minutes if none is named |
| `FlattenLaws.SystemSegment` | upstream-python/bench/cachesim.py:191-230 | then the system blocks, the same way |
| `FlattenLaws.MessageSegment` | upstream-python/bench/cachesim.py:197-230 | then the blocks of each message, under the message's role |
| `FlattenLaws.FourSurvive` | upstream-python/bench/cachesim.py:231-243 | of the markers a body asks for, four survive or as many as there are; with `MessageSegment`, the later ones |
| `PlainCache.WrittenOnce` | upstream-python/bench/cachesim.py:360-371 | between two points up to the last breakpoint every token is written at exactly one tier |
| `PlainCache.Conservation` | upstream-python/bench/cachesim.py:334-375 | input + read + writes = request total + max(0, read − last breakpoint); without a breakpoint everything is input |
| `PlainCache.ExactConservation` | upstream-python/bench/cachesim.py:351-375 | on any request the bill is exact if and only if it has no breakpoint or the cache holds no live prefix of it that reaches past its last one |
| `PlainCache.BilledTwice` | upstream-python/bench/cachesim.py:351-375 | from an empty cache: a second turn that drops the marker on its last block bills that block as read and as fresh |
| `PlainCache.UsageNonNegative` | upstream-python/bench/cachesim.py:346-375 | no class of tokens is negative |
| `PlainCache.NoneLiveAfterRead` | upstream-python/bench/cachesim.py:351-358 | no longer prefix of the request is live than the one that is read |
| `PlainCache.AfterAt` | upstream-python/bench/cachesim.py:377-391 | the whole new state, entry by entry: breakpoints at their own TTL, the entry read renewed for five minutes, all else untouched |
| `PlainCache.TrimKeepsLast` | upstream-python/bench/cachesim.py:236-242 | trimming never moves the last marker |
| `CacheLaws.NoHourAsked` | upstream-python/bench/cachesim.py:367-370 | a request that asks for no hour is billed no hour-long write |
| `CacheLaws.OnlyHoursAsked` | upstream-python/bench/cachesim.py:367-370 | a request that asks for nothing but hours is billed nothing else |
| `CacheLaws.BilledByTier` | upstream-python/bench/cachesim.py:360-371 | each span past the read, from one cacheable marker to the next, is billed at the tier the marker at its end asks for |
| `CacheLaws.OneBlock` | upstream-python/bench/cachesim.py:367-370 | 2000 marked tokens, cold: all at the hour tier or all at the other |
| `CacheLaws.TwoTiers` | upstream-python/bench/cachesim.py:360-371 | an hour-long marker and a shorter one behind it, cold: each span at its own tier |
| `CacheLaws.SmallIsNotCached` | upstream-python/bench/cachesim.py:341-349 | under 1024 tokens nothing is cached, read or stored |
| `CacheLaws.LargeIsCached` | upstream-python/bench/cachesim.py:341-344 | from 1024 tokens on a marker on the last block caches everything |
| `CacheLaws.EntryTime` | upstream-python/bench/cachesim.py:380-381 | a breakpoint's entry expires 3600 s or 300 s from now, even if it would have lived longer |
| `CacheLaws.ReadIsRenewed` | upstream-python/bench/cachesim.py:387-391 | what the read hit is never shortened, and lasts at least 300 s |
| `CacheLaws.OthersKept` | upstream-python/bench/cachesim.py:380-391 | no other entry changes |
| `CacheLaws.ReadUntilExpiry` | upstream-python/bench/cachesim.py:354-357 | an entry is read before it expires, and not at that moment |
| `CacheLaws.OnlyLiveIsLeft` | upstream-python/bench/cachesim.py:394-395 | eviction leaves the live entries as they were, and no others |
| `CacheSim.Walk` | upstream-python/bench/cachesim.py:329-344 | the running digest and count give every boundary and every cacheable breakpoint, keyed by the chain of the actual prefix |
| `CacheSim.Spans` | upstream-python/bench/cachesim.py:360-371 | the loop over breakpoints charges each unread token to the tier of the breakpoint that closes its span |
| `CacheSim.KeyListed` | upstream-python/bench/cachesim.py:387-391 | without collisions the digest read is among the breakpoints' digests exactly when the read ends on a breakpoint |
| `CacheSim.CacheSim.FindRead` | upstream-python/bench/cachesim.py:351-358 | searching the boundaries from the end finds the longest live prefix of the plain map |
| `CacheSim.CacheSim.Store` | upstream-python/bench/cachesim.py:377-381 | storing the breakpoints keeps the dictionary equal to the plain map with each prefix stored |
| `CacheSim.CacheSim.Refresh` | upstream-python/bench/cachesim.py:377-391 | the new dictionary is the plain map after the request |
| `CacheSim.CacheSim.ScoreSegments` | upstream-python/bench/cachesim.py:329-392 | the dictionary of chained digests refines the plain map from (scope, prefix) to expiry: same bill, same state |
| `CacheSim.CacheSim.Score` | upstream-python/bench/cachesim.py:310-392 | `score` on a body: flattened, billed and stored as the plain map says, under the scope or else the model |
| `CacheSim.CacheSim.EvictExpired` | upstream-python/bench/cachesim.py:394-395 | eviction drops from both sides the entries that are not live |
| `CacheSim.IdealIsCollisionFree` | upstream-python/bench/cachesim.py:329-340 | the assumption on the hash is satisfiable |
| `CacheRuns.NonInterference` | upstream-python/bench/cachesim.py:321-330 | in any interleaved run each turn of a scope is billed, and its entries end up, as if only that scope's turns had been sent |
| `CacheRuns.TotalIsSumOfScopes` | upstream-python/bench/cachesim.py:693-710 | the total of a mixed corpus is the sum of its scopes scored alone |
| `CacheRuns.EvictionInvisible` | upstream-python/bench/cachesim.py:354-357 | evictions anywhere in a run whose non-negative clock does not go back change no bill |
| `CacheRuns.BreakpointIsRead` | upstream-python/bench/cachesim.py:351-381 | from any cache state, what a turn stored at any of its breakpoints is read by the next request that starts with it and comes within the marker's time |
| `CacheRuns.BreakpointSurvives` | upstream-python/bench/cachesim.py:351-391 | within five minutes it is read whatever was sent in between, in the same scope too: no later request shortens an entry below that |
| `CacheRuns.FollowerReads` | upstream-python/bench/cachesim.py:351-381 | from any cache state, a turn right after one it follows reads at least what that one cached |
| `CacheRuns.FollowerReadsAmidTraffic` | upstream-python/bench/cachesim.py:351-391 | and within five minutes it does whatever other conversations of the scope sent meanwhile |
| `CacheRuns.ChangedIsLost` | upstream-python/bench/cachesim.py:351-358 | a request that differs from the only earlier one ahead of all its breakpoints reads nothing |
| `CacheRuns.NextTurn` | upstream-python/bench/cachesim.py:351-392 | after a warm turn, the next reads exactly its last breakpoint and writes exactly the rest |
| `CacheRuns.WriteOnce` | upstream-python/bench/cachesim.py:310-392 | over any conversation from a cold scope every turn reads the previous turn's last breakpoint, and all creation adds up to the final one |
| `CacheRuns.WriteOnceInterleaved` | upstream-python/bench/cachesim.py:310-392 | the same inside traffic of any other scopes |
| `CacheRuns.AppendOnlyIsExact` | upstream-python/bench/cachesim.py:334-375 | from a warm state, on one append-only step, every token lands in exactly one bucket |
| `CacheRuns.AppendOnlyRunIsExact` | upstream-python/bench/cachesim.py:334-375 | and so on every turn of a whole append-only run from a cold scope |
| `CacheRuns.AppendOnlyBills` | upstream-python/bench/cachesim.py:334-375 | each turn of such a run bills its size and creates exactly what it newly caches |
| `HeadScanner.HasMessages` | upstream-python/bench/cachesim.py:567-606 | the index-and-depth loop computes `Answer`, from any start offset, out of range included |
| `HeadScanner.PassString` | upstream-python/bench/cachesim.py:585-597 | one string of the scan settles the answer or leaves the rest of it unchanged |
| `HeadScanner.FindQuote` | upstream-python/bench/cachesim.py:587-590 | the inner loop finds the closing quote, a backslash escaping the next byte, or runs off the end |
| `HeadScanner.SettledAnswerStands` | upstream-python/bench/cachesim.py:567-606 | a definite answer is unchanged by any further bytes |
| `HeadScanner.AnswerOnObject` | upstream-python/bench/cachesim.py:567-606 | on the text of any JSON object (sections 2, 4 and 7 of RFC 8259), whatever its nesting, strings, escapes and white space, the answer is definite and says whether `messages` is spelled out as a top-level key |
| `HeadScanner.AnswerOnOther` | upstream-python/bench/cachesim.py:578-579 | on any other JSON value the answer is no |
| `HeadScanner.HeadIsSound` | upstream-python/bench/cachesim.py:567-576 | a definite answer on any head of the file is the answer for the whole object |
| `HeadScanner.AgreesWithParse` | upstream-python/bench/cachesim.py:567-631 | the answer is that of a full parse if and only if a key that reads `messages` is also spelled that way once |
| `HeadScanner.OtherSpellingIsMissed` | upstream-python/bench/cachesim.py:591-593 | an object whose one key reads `messages` in any spelling but the plain one has the key, and the scan definitely answers no |
| `HeadScanner.EscapedKeyIsMissed` | upstream-python/bench/cachesim.py:591-593 | such a spelling exists: `{"\u006dessages":1}` |
| `HeadScanner.AheadOfTheValue` | upstream-python/bench/cachesim.py:575-579 | the four white space bytes are passed over, and any other byte but a brace is a no |
| `HeadScanner.NameAtTheFront` | upstream-python/bench/cachesim.py:580-593 | on plain bytes: an opening brace and the quoted name settle it, whatever follows |
| `HeadScanner.NameAsValue` | upstream-python/bench/cachesim.py:585-597 | the name as a value does not |
| `HeadScanner.NameBelow` | upstream-python/bench/cachesim.py:598-605 | nor as a key one level down |
| `HeadScanner.EscapesAre` | upstream-python/bench/cachesim.py:56-60 | what a full parse makes of the escapes of section 7 of RFC 8259 |
| `Markers.ClearingIsInvisible` | upstream-python/bench/strategies.py:43-66 | clearing markers and normalising strings leaves the messages as the cache sees them if and only if no message block has a `cache_control` that is not an object |
| `Markers.ClearingKeepsShape` | upstream-python/bench/cachesim.py:212-230 | for every body, and in terms of `flatten`: tokens and digests stay if and only if that condition holds |
| `Markers.NullMarkerIsHashed` | upstream-python/bench/cachesim.py:216-230 | a body whose one block has a null `cache_control` hashes differently once it is cleared |
| `Markers.ShapeIsConversation` | upstream-python/bench/cachesim.py:212-230 | same tokens and digests if and only if same roles and same blocks apart from markers |
| `Markers.TailBreakpointsInvisible` | upstream-python/bench/strategies.py:182-195 | `tail-breakpoints-n` keeps the conversation |
| `Markers.RebalanceInvisible` | upstream-python/bench/strategies.py:209-240 | `rebalance-1sys-ntail` keeps the conversation |
| `Markers.StripSystemInvisible` | upstream-python/bench/strategies.py:198-206 | `strip-system-breakpoints` keeps the conversation |
| `Markers.StripSystemKeepsShape` | upstream-python/bench/strategies.py:198-206 | it keeps tokens and digests if and only if no system block has a `cache_control` that is not an object |
| `Markers.ForceTtlInvisible` | upstream-python/bench/strategies.py:255-262 | `force-ttl-*` keeps the conversation of every body |
| `Markers.SameConversationShape` | upstream-python/bench/cachesim.py:212-230 | one conversation flattens to the same tokens and digests wherever its markers sit |
| `Markers.MarkersDoNotMoveTheRead` | upstream-python/bench/cachesim.py:346-358 | from one cache state, two bodies that are one conversation read the same whenever both keep a cacheable breakpoint |
| `Markers.PlacesEditable` | upstream-python/bench/strategies.py:43-61 | the listed blocks are objects, in range, and pairwise different places |
| `MarkerMoves.EditsInvisible` | upstream-python/bench/strategies.py:960-1116 | any list of assignments and pops of `cache_control` objects keeps the conversation |
| `MarkerMoves.EditsCarry` | upstream-python/bench/strategies.py:960-1116 | which blocks carry a marker after a list of edits: the last edit of each block decides |
| `MarkerMoves.MoveInvisible` | upstream-python/bench/strategies.py:978-1113 | `shipped-back-*`, `shipped-tail`, `spread-wire-*` and `anchor-1h-*` keep the conversation, wherever the target falls |
| `MarkerMoves.MarkedAfterMove` | upstream-python/bench/strategies.py:978-1113 | where the markers are afterwards, position by position, including when the strategy declines to act |
| `MarkerMoves.MoveSpends` | upstream-python/bench/strategies.py:978-1113 | moving keeps the number of marked blocks of the body; adding raises it by one or not at all |
| `MarkerMoves.PairBackInvisible` | upstream-python/bench/strategies.py:960-969 | `pair-back-*` keeps the conversation |
| `MarkerMoves.TailSlotsInvisible` | upstream-python/bench/strategies.py:265-281 | `tail-slots-n` keeps the conversation |
| `OverBudgetArm.TailCount` | upstream-python/bench/strategies.py:182-195 | a tail placement leaves as many message markers as its rounded positions are in range and different |
| `OverBudgetArm.ThreeBacks` | upstream-python/bench/strategies.py:191-194 | the three rounded (half-to-even) positions are in range and distinct if and only if there are nine or more blocks |
| `OverBudgetArm.OverBudgetEquivalence` | upstream-python/bench/strategies.py:176-233 | with two system markers and none on tools, the five-marker arm trims to the four-marker arm, segment for segment, if and only if there are nine or more message blocks |
| `MarkerLaws.NearestIsRound` | upstream-python/bench/strategies.py:192 | `round` gives the nearest integer, the even one of two |
| `MarkerLaws.HalvesAreEven` | upstream-python/bench/strategies.py:192 | halves go to the even side |
| `MarkerLaws.AllAreListed` | upstream-python/bench/strategies.py:43-61 | every block that is an object is listed |
| `MarkerLaws.TailPlacement` | upstream-python/bench/strategies.py:182-195 | the k-th of n blocks is marked if and only if its distance from the last is nearest to i·n/(4·count) for some i below count; and then for an hour |
| `MarkerLaws.HeadIsKept` | upstream-python/bench/strategies.py:182-240 | the placements leave model, tools and system alone, `rebalance-*` all but the system |
| `MarkerLaws.SpreadPlacement` | upstream-python/bench/strategies.py:685-703 | ahead of the newest answer likewise, with the markers the system leaves of four, at least one |
| `MarkerLaws.SpreadFits` | upstream-python/bench/strategies.py:697 | with up to three system markers the spread body asks for no more than four |
| `MarkerLaws.SystemMarkersAre` | upstream-python/bench/strategies.py:707-711 | which system blocks count against the budget: those with a full marker, not those with an empty one or none |
| `MarkerLaws.SafePlacement` | upstream-python/bench/strategies.py:744-751 | the end of the last message before the answer that ends in an object is marked, and nothing else |
| `MarkerLaws.SystemStripped` | upstream-python/bench/strategies.py:198-206 | `strip-system-breakpoints` removes that key from every system block and nothing else |
| `MarkerLaws.FirstIsDropped` | upstream-python/bench/strategies.py:209-218 | of system blocks with full markers or none, the first that has one loses it, and only that one |
| `MarkerLaws.NoneIsDropped` | upstream-python/bench/strategies.py:209-218 | empty markers are passed over |
| `MarkerLaws.EveryTierForced` | upstream-python/bench/strategies.py:255-262 | every marker of system and messages becomes one of the given tier, and nothing else is touched |
| `MarkerLaws.MovedMarker` | upstream-python/bench/strategies.py:978-1113 | a copied or moved marker keeps its value; an added anchor asks for an hour |
| `MarkerLaws.PairPlacement` | upstream-python/bench/strategies.py:960-969 | `pair-back-*` marks the last block and, if it is ahead of that, the target |
| `MarkerLaws.SlotPlacement` | upstream-python/bench/strategies.py:265-281 | `tail-slots-n` marks the end of a message if and only if fewer than n later ones could be marked |
| `MarkerLaws.PlacedHours` | upstream-python/bench/strategies.py:265-281 | and for an hour |
| `Reasoning.StripClean` | upstream-python/bench/strategies.py:739-740 | stripping reasoning and clearing markers commute |
| `Reasoning.SealedFollows` | upstream-python/bench/cachesim.py:351-381 | two forwarded bodies that agree up to a cut, the first with no marker past it and the second marked at least as far: the second caches at least as far and starts with all the first cached |
| `Reasoning.SafeSealed` | upstream-python/bench/strategies.py:655-665 | one hour-long marker, at the last markable message end before the newest assistant message, over the stripped conversation |
| `Reasoning.SpreadSealed` | upstream-python/bench/strategies.py:668-704 | the spread markers are hour-long, all before the cut, the last on the last block there |
| `ReasoningLaws.OnlyOldReasoningGoes` | upstream-python/bench/strategies.py:729-741 | the newest assistant message goes out as the client's up to markers; of every other one exactly the blocks of type thinking or redacted_thinking are gone, and the rest is the client's, in order |
| `ReasoningLaws.TheRestIsTheClients` | upstream-python/bench/strategies.py:655-704 | model, tools and system are the client's; without an answer everything is |
| `ReasoningRuns.MarkersBeforeCut` | upstream-python/bench/strategies.py:655-704 | every message marker lies strictly before the newest assistant message |
| `ReasoningRuns.SealedForAnHour` | upstream-python/bench/strategies.py:655-704 | what a message marker caches lives 3600 s |
| `ReasoningRuns.PrefixReappears` | upstream-python/bench/strategies.py:655-751 | over an append-only step with stable tools and system, all that was cached is a prefix of the later request |
| `ReasoningRuns.FirstSealed` | upstream-python/bench/strategies.py:655-661 | also from the last turn without an answer, forwarded as it came, to the first one with an answer, if the seal reaches the client's last marker and no reasoning precedes it |
| `ReasoningRuns.StillOpen` | upstream-python/bench/strategies.py:655-661 | and between two turns without an answer, if the client does not move its last marker back |
| `ReasoningRuns.EveryLaterTurn` | upstream-python/bench/strategies.py:655-751 | and of every later request of the session |
| `ReasoningRuns.NextTurnReads` | upstream-python/bench/strategies.py:655-751 | from any cache state the next turn in time reads at least the previous last cacheable breakpoint |
| `ReasoningRuns.NothingInvalidated` | upstream-python/bench/strategies.py:639-704 | over a whole append-only session, turns before the first answer included, every turn reads exactly what the previous one cached, and each cached token is written once |
| `Offload.Gate.IsRebuildBoundary` | upstream-python/bench/strategies.py:803-820 | only a session's first turn is a boundary, and it is remembered |
| `Offload.Gate.OffloadGated` | upstream-python/bench/strategies.py:860-903 | the in-place loop over per-session memory computes `ForwardedMessages` and the new memory, and touches no other session |
| `Offload.OffloadMessage` | upstream-python/bench/strategies.py:875-902 | the inner loop decides block by block with the memory as it grows |
| `Offload.SeenClean` | upstream-python/bench/strategies.py:860-903 | the client's marker placement and string shapes do not change what the gate remembers |
| `Offload.NeverFlipsBack` | upstream-python/bench/strategies.py:887-902 | within a turn, a text that is known is converted at any distance and stays known, unless its tool is verbatim |
| `Offload.ConvertedForGood` | upstream-python/bench/strategies.py:860-903 | over any session, a block converted on one turn is converted to the same bytes on every later turn that still has it, at any distance from the tail, repeated texts included |
| `Offload.MemoryGrows` | upstream-python/bench/strategies.py:794-796 | what a session has converted is never forgotten |
| `Offload.BlockChanges` | upstream-python/bench/strategies.py:860-903 | a block goes out differently on a later turn if and only if it was held back on the earlier one, is converted on the later one, and the preview is shorter |
| `Offload.DecidedAtStart` | upstream-python/bench/strategies.py:887-902 | with distinct texts a block is decided by what the session knew when the turn began, and is known after exactly if it was or is converted |
| `Offload.HistoryFrozen` | upstream-python/bench/strategies.py:794-903 | over any append-only session with distinct texts and fresh tool ids, what is forwarded for a message four or more from the tail is the same on every later turn, under every arm |
| `OffloadCalls.ServeAll` | upstream-python/bench/strategies.py:794-903 | any interleaving of sessions against one gate is answered, call by call, from the calling session's own history |
| `OffloadCalls.ExpectedIsSent` | upstream-python/bench/strategies.py:860-903 | that answer is the last turn of the session so far, as `HistoryFrozen` and `ConvertedForGood` have it |
| `OffloadRuns.SentClean` | upstream-python/bench/strategies.py:860-903 | clearing markers and normalising strings commutes with the whole session |
| `OffloadRuns.FrozenPrefix` | upstream-python/bench/strategies.py:794-903 | the frozen part of a turn, markers aside, is a prefix of what every later turn forwards |
| `OffloadRuns.FrozenPrefixReappears` | upstream-python/bench/cachesim.py:212-243 | so its segments, with tools and system in front, are a prefix of every later request |
| `OffloadRuns.FrozenIsRead` | upstream-python/bench/cachesim.py:351-381 | so from any cache state an entry stored at any breakpoint of the frozen part is read by the next request of the session within the marker's time |
| `OffloadRuns.FrozenIsReadAmidTraffic` | upstream-python/bench/cachesim.py:351-391 | and within five minutes by every later turn, whatever was sent in between |
| `OffloadTail.TailIsNotKept` | upstream-python/bench/strategies.py:887-902 | outside the frozen part it need not be: the result of an excluded tool, cached at the tail, is a preview four messages on, and nothing of what was cached is read |
| `OffloadTail.SomethingOffloads` | upstream-python/bench/strategies.py:512-533 | there are arms and texts for which this happens |
| `OffloadLaws.ChangedIsPreview` | upstream-python/bench/strategies.py:512-533 | a block that goes out changed is a tool result whose text is now its own first min(max(n/4, 600), 3072) characters and the footer filled up to 180, shorter than before; type, ids and other fields are the client's |
| `OffloadLaws.OtherBlocksAreKept` | upstream-python/bench/strategies.py:879-881 | no other block is touched |
| `OffloadLaws.MessagesAreKept` | upstream-python/bench/strategies.py:875-902 | messages keep their place, role and shape |
| `OffloadLaws.OthersAreConverted` | upstream-python/bench/strategies.py:882-902 | exactly which results are converted, with the distances 3 and 8 spelled out, and what is remembered |
| `OffloadLaws.VerbatimIsKept` | upstream-python/bench/strategies.py:885-886 | a verbatim tool's result never changes |
| `OffloadLaws.ExcludedIsKeptNear` | upstream-python/bench/strategies.py:889-894 | an excluded tool's new result does not in the four newest messages |
| `OffloadLaws.DeepIsKept` | upstream-python/bench/strategies.py:897-899 | nor does a new result eight or more messages back, off a boundary |
| `OffloadLaws.ConversionShows` | upstream-python/bench/strategies.py:529-530 | conversion shows from 781 characters on |
| `OffloadLaws.FloorIsExclusive` | upstream-python/bench/strategies.py:882-884 | a text of exactly the floor is left alone |
| `OffloadLaws.JoinedInOrder` | upstream-python/bench/strategies.py:516-518 | the text of a list is that of its parts, in order |
| `OffloadLaws.JoinedParts` | upstream-python/bench/strategies.py:516-518 | and only of its text parts |
| `OffloadLaws.LatestCallNames` | upstream-python/bench/strategies.py:847-857 | the latest call with an id names its tool; a name that is no string counts as empty |
| `OffloadLaws.OtherCallDoesNot` | upstream-python/bench/strategies.py:847-857 | a call with another id does not |
| `OffloadLaws.NoCallNoName` | upstream-python/bench/strategies.py:885 | without a call there is no name |
| `OffloadLaws.FrozenFromFour` | upstream-python/bench/strategies.py:794-903 | with the four spelled out: from there on, what goes out is settled |
| `Splice.SpliceScope` | upstream-python/bench/_splicesim.py:45-69 | the loop over a scope forwards, turn by turn, what `Spliced` says |
| `Splice.CountCommon` | upstream-python/bench/_splicesim.py:54-56 | the loop counts exactly the leading digests that agree |
| `Splice.HashedIsFlattened` | upstream-python/bench/_splicesim.py:25-28 | the digests compared are those `flatten` gives the messages, one to a block, roles included |
| `Splice.SplicedMessage` | upstream-python/bench/_splicesim.py:53-58 | message j of a splice is the previous output's while the digests agree up to j and that output reaches it, and this turn's own from there on |
| `Splice.TurnByTurn` | upstream-python/bench/_splicesim.py:45-69 | the first turn of a scope goes out as it is, each later one spliced on the one before |
| `Splice.Provenance` | upstream-python/bench/_splicesim.py:45-69 | message j of every output is message j that some turn up to now forwarded, and that turn's client digests agree with this one's up to index j |
| `Splice.MessageProvenance` | upstream-python/bench/_splicesim.py:31-70 | while every splice so far is justified: that turn's client messages 0 to j are this turn's |
| `Splice.OneBlockIsJustified` | upstream-python/bench/_splicesim.py:25-28 | with one block to a message every splice is justified |
| `Splice.CommonByMessages` | upstream-python/bench/_splicesim.py:53-56 | the digests that agree are all blocks of the leading messages that agree, and then what the next two have in common |
| `Splice.ReplayJustified` | upstream-python/bench/_splicesim.py:53-58 | in general a splice replays only messages the client repeated if and only if the previous output, this turn's own messages, or the agreeing digests run out before the agreeing messages do |
| `Splice.SeveralBlocksReplayStale` | upstream-python/bench/_splicesim.py:25-28 | a family where it is not: a two-block first message makes the splice replay a second message that the client has changed |
| `Splice.OutputExtends` | upstream-python/bench/_splicesim.py:45-69 | when the client's blocks only grow, and a turn forwards no more messages than its client sent blocks and than the next turn forwards, its output is extended exactly |
| `Splice.NoneEmpty` | upstream-python/bench/_splicesim.py:45-69 | the block condition is met when a turn forwards one message for each it got and none of those is empty, however many blocks they hold |
| `Splice.SpliceWritesOnce` | upstream-python/bench/_splicesim.py:31-70 | so under the same message-count conditions the spliced arm of a session writes each cached token once, however the proxy's own forwarding changes |
| `Poster.DigestRoundTrip` | contrib/offload-workers/review_post.py:84-88 | the digest taken out of a current or legacy marker is the one that went in |
| `Poster.RepliesAtMostOnce` | contrib/offload-workers/review_post.py:305-382 | after any runs, stops, failed or unacknowledged writes and cut-short listings, a reply's marker is on the server at most once and only on its thread |
| `Poster.OpeningsAtMostOnce` | contrib/offload-workers/review_post.py:319-382 | a new thread's marker too, if every listing a run starts from is complete |
| `Poster.ListingDecides` | contrib/offload-workers/gitlab_api.py:200-216 | a listing cannot open an existing thread again if and only if it shows a thread that carries the marker |
| `Poster.ShortListingOpensTwice` | contrib/offload-workers/gitlab_api.py:200-216 | from an empty server, two runs with one new thread, the second not shown what the first opened, leave its marker there twice |
| `Poster.CleanIsSeparate` | contrib/offload-workers/review_post.py:72-109 | distinct markers and bodies without a comment opener are enough for no note to carry another one's marker, legacy prefix included |
| `Poster.SafeDrafts` | contrib/offload-workers/review_post.py:305-382 | for a draft without comment openers on a server that has not seen it, nothing is ever posted twice if and only if its markers are distinct |
| `Poster.SharedMarkerPostsTwice` | contrib/offload-workers/review_post.py:305-382 | any two posts with one marker, replies or new threads, are both on the server after one run that lands its writes |
| `Poster.DuplicatePostsTwice` | contrib/offload-workers/review_post.py:305-365 | for instance two identical replies |
| `PosterRun.PlanReplies` | contrib/offload-workers/review_post.py:307-317 | the loop splits the replies into those whose thread lacks the marker and those whose thread has it, in order |
| `PosterRun.PlanOpenings` | contrib/offload-workers/review_post.py:322-341 | the same for new threads, over all listed threads |
| `PosterRun.SendAllReplies` | contrib/offload-workers/review_post.py:356-365 | each write lands, is refused, or lands unacknowledged; posted and failed record the acknowledgement |
| `PosterRun.SendAllOpenings` | contrib/offload-workers/review_post.py:367-382 | the same for new threads |
| `PosterRun.VerifyReplies` | contrib/offload-workers/review_post.py:384-400 | the re-read of the replies: missing, or verified by a lookup under the current prefix, which crashes if it comes up empty |
| `PosterRun.VerifyOpenings` | contrib/offload-workers/review_post.py:402-419 | the re-read of the new threads, anywhere on the request |
| `PosterRun.Verify` | contrib/offload-workers/review_post.py:384-451 | the verdict: crash, or a proof that is ok when nothing failed and nothing is missing |
| `PosterRun.Approve` | contrib/offload-workers/review_post.py:305-451 | a run from plan to verdict, over the server |
| `PosterRun.ProofIsSound` | contrib/offload-workers/review_post.py:384-451 | if the proof says ok, at the re-read every reply is on its own thread and every new thread on some thread, whatever others did meanwhile |
| `PosterRun.RerunIsQuiet` | contrib/offload-workers/review_post.py:305-451 | a delivered draft is never posted again: a rerun plans nothing, changes nothing and is ok |
| `PosterRun.Convergence` | contrib/offload-workers/review_post.py:305-451 | a run that proves ok is followed by a quiet, ok one |
| `PosterRun.LegacyOnlyCrashes` | contrib/offload-workers/review_post.py:305-400 | a run, whatever it posts, crashes if and only if some reply on a thread the re-read shows was there before under the old prefix only |
| `PosterRun.LegacyServerCrashes` | contrib/offload-workers/review_post.py:305-400 | the server holding one note as the poster wrote it before the rename is one: every run that lists its thread crashes |
| `PosterRun.LegacyRerunCrashes` | contrib/offload-workers/review_post.py:386-392 | for replies that are all there, also for drafts whose markers are not distinct |
| `PosterRun.RunIsEvents` | contrib/offload-workers/review_post.py:305-382 | a run is a sequence of the events `RepliesAtMostOnce` quantifies over |
| `PosterLaws.ReplyIsPlanned` | contrib/offload-workers/review_post.py:307-317 | a reply is planned if and only if no note of its own thread holds its marker, under either name |
| `PosterLaws.OpeningIsPlanned` | contrib/offload-workers/review_post.py:322-341 | a new thread, if and only if no note of any listed thread does |
| `PosterLaws.EverythingIsWritten` | contrib/offload-workers/review_post.py:356-382 | after a run whose writes all land the server holds what it held, then every planned comment with an empty line and its marker, replies on their own threads and new threads on new ones, in the draft's order |
| `PosterLaws.ProofDeliversComments` | contrib/offload-workers/review_post.py:356-419 | a proof that says ok delivers comments, not markers alone: whatever was not there before is there with its text |
| `PosterLaws.AckedReplyHolds` | contrib/offload-workers/review_post.py:356-365 | an acknowledged reply is on its thread, comment and all |
| `PosterLaws.AckedOpeningHolds` | contrib/offload-workers/review_post.py:367-382 | an acknowledged new thread is on one of the new ids, comment and all |
| `PosterLaws.OkExactly` | contrib/offload-workers/review_post.py:450-451 | the proof says ok if and only if no write failed and everything the draft asks for is there |
| `PosterLaws.FailedExactly` | contrib/offload-workers/review_post.py:356-365 | a reply fails unless it is acknowledged, and is stored unless it is refused |
| `PosterLaws.OpeningFailsExactly` | contrib/offload-workers/review_post.py:367-382 | so does a new thread |
| `PosterLaws.EitherPrefixCounts` | contrib/offload-workers/review_post.py:84-88 | a note counts under the current or the former name of the poster, with that digest |
| `Diagnose.AnnotateFloors` | scripts/cache-ratio-diagnose.py:187-195 | the running-peak loop gives each turn its rise above all earlier turns |
| `Diagnose.SizeIsVisible` | scripts/cache-ratio-diagnose.py:190 | the size of a turn leaves out what hidden rounds add to its totals |
| `Diagnose.PeakIsMax` | scripts/cache-ratio-diagnose.py:188-195 | the peak is an upper bound that is attained |
| `Diagnose.FloorsTelescope` | scripts/cache-ratio-diagnose.py:187-195 | per conversation the floors sum to peak size minus first size |
| `Diagnose.ExcessCreate` | scripts/cache-ratio-diagnose.py:255-264 | the dictionary loop nets creation over floor within each conversation and adds the positive nets |
| `Diagnose.ExcessBounds` | scripts/cache-ratio-diagnose.py:255-264 | max(0, Σ(create − floor)) ≤ excess ≤ Σ max(0, create − floor) |
| `Diagnose.FalseAlarm` | scripts/cache-ratio-diagnose.py:187-264 | on a simulated append-only run the excess after the first turn is exactly max(0, first uncached tail − last uncached tail) |
| `Diagnose.FalseAlarms` | scripts/cache-ratio-diagnose.py:182-264 | over any interleaving of such conversations in scopes of their own, it is the sum of that over the conversations |
| `Diagnose.SteadyOfConv` | scripts/cache-ratio-diagnose.py:182-195 | floors taken within each conversation of a mixed ledger are those of the conversation by itself |
| `SeekWindow.SeekWindowStart` | scripts/cache-ratio-diagnose.py:89-106 | for time-ordered lines of any length, some without timestamps, the search ends, no line at or after the cutoff starts before the returned offset, and at most 1 MiB and one line before the window is kept |
| `SeekWindow.ReadTime` | scripts/cache-ratio-diagnose.py:97-101 | the probe reads on to the first line with a timestamp, or the end |
| `Reports.ScopeIdentifies` | upstream-python/bench/cachesim.py:693-701 | two turns share a scope exactly when they share model and credential |
| `ReportLaws.ScopeIs` | upstream-python/bench/cachesim.py:696-701 | the scope is the model, a NUL and the second field of the session key, empty if there is only one |
| `ReportLaws.OneTokenCosts` | upstream-python/bench/cachesim.py:260-267 | a token of each kind costs its own weight |
| `ReportLaws.KeptNextTurn` | upstream-python/bench/cachesim.py:861-870 | a turn counts if both its bodies load, and turns keep their order |
| `ReportLaws.ArmNextTurn` | upstream-python/bench/cachesim.py:693-701 | an arm is sent what its bodies flatten to, under model and credential |
| `ReportLaws.ArmBillNext` | upstream-python/bench/cachesim.py:704-710 | an arm's bill grows by what each turn is billed |
| `ReportLaws.SessionsAre` | upstream-python/bench/cachesim.py:871-872 | sessions are counted by key, each once |
| `ReportLaws.PairedById` | upstream-python/bench/cachesim.py:1105-1110 | a forwarded turn is paired with the client's last one of the same id, or dropped |
| `ReportLaws.CauseIsLargest` | upstream-python/bench/cachesim.py:1127-1129 | the cause is the part that lost most, the one named first on a tie |
| `ReportLaws.ChargedOnce` | upstream-python/bench/cachesim.py:1123-1134 | a loss is charged to its cause and to no other; any other turn is a gain |
| `Reports.StreamScorer.Add` | upstream-python/bench/cachesim.py:523-528 | feeding one turn adds its bill and keeps the total equal to the arm scored so far |
| `Reports.ScorePairs` | upstream-python/bench/cachesim.py:861-871 | the walk feeds both arms exactly the turns for which both bodies load |
| `Reports.PairedPass` | upstream-python/bench/cachesim.py:848-872 | the streamed totals are `score_arm` over the corpus filtered first |
| `Reports.PairUp` | upstream-python/bench/cachesim.py:1105-1110 | the pairs are the join of both arms on request id |
| `Reports.Attribute` | upstream-python/bench/cachesim.py:1123-1134 | the loop computes gained, lost, and the loss per cause |
| `Reports.CausesAddUp` | upstream-python/bench/cachesim.py:1123-1134 | per-cause losses sum to the total loss |
| `Reports.ClientTurnsAreKept` | upstream-python/bench/cachesim.py:1098-1103 | with unique ids, filtering the client's turns by forwarded id leaves the turns for which both bodies load |
| `Reports.NetIsDifferenceOfBills` | upstream-python/bench/cachesim.py:1098-1134 | with unique request ids gained − lost of the report is the difference of the bills of the two arms, each scored on its own, for any weights |
| `Reports.PartsOfDelta` | upstream-python/bench/cachesim.py:1115-1121 | the difference is tail − "prefix not read" + writes: the middle part has the opposite sign |
| `Reports.PartsAddUp` | upstream-python/bench/cachesim.py:1115-1121 | the three parts add up to the difference if and only if both arms read the same or reads are free |
| `Reports.ReadLossIsMisnamed` | upstream-python/bench/cachesim.py:1127-1130 | every turn lost only by reading more is blamed on the uncached tail |
| `Reports.CorpusExists` | upstream-python/bench/cachesim.py:1098-1103 | two captured turns: the client sends one marked block, the proxy forwards one block more |
| `Reports.CorpusIsMisreported` | upstream-python/bench/cachesim.py:1098-1134 | on every corpus like that the report holds a turn lost by reading more that is blamed on the uncached tail and whose parts do not add up, whatever a read costs |
| `Rewriter.Outgoing.ClearMessageMarkers` | upstream-python/bench/strategies.py:43-66 | the in-place loop clears every message marker and normalises every string |
| `Rewriter.Outgoing.PlaceTail` | upstream-python/bench/strategies.py:182-195 | `_tail_breakpoints` in place is `TailBreakpoints` |
| `Rewriter.Outgoing.DropFirstSystemMarker` | upstream-python/bench/strategies.py:209-218 | drops the first truthy system marker and says whether there was one |
| `Rewriter.Outgoing.RebalanceTail` | upstream-python/bench/strategies.py:221-240 | `rebalance-1sys-ntail` in place |
| `Rewriter.Outgoing.StripSystemMarkers` | upstream-python/bench/strategies.py:198-206 | `strip-system-breakpoints` in place |
| `Rewriter.Outgoing.ForceTtlTo` | upstream-python/bench/strategies.py:255-262 | `force-ttl-*` in place |
| `Rewriter.Outgoing.EmulateProxyTail` | upstream-python/bench/strategies.py:265-281 | `tail-slots-n` in place |
| `Rewriter.Outgoing.SpreadPair` | upstream-python/bench/strategies.py:960-969 | `pair-back-*` in place |
| `Rewriter.Outgoing.FindPositions` | upstream-python/bench/strategies.py:1021-1034 | the positions and which of them are marked |
| `Rewriter.Outgoing.SpreadShippedBack` | upstream-python/bench/strategies.py:978-1012 | `shipped-back-*` in place |
| `Rewriter.Outgoing.PushToTail` | upstream-python/bench/strategies.py:1038-1049 | `shipped-tail` in place |
| `Rewriter.Outgoing.SpreadWireBack` | upstream-python/bench/strategies.py:1058-1086 | `spread-wire-*` in place |
| `Rewriter.Outgoing.AnchorForAnHour` | upstream-python/bench/strategies.py:1095-1116 | `anchor-1h-*` in place |
| `Rewriter.Outgoing.StripBehindLastAssistant` | upstream-python/bench/strategies.py:729-741 | finds the newest assistant message and strips every other one; no change without one |
| `Rewriter.Outgoing.MarkLastBlockBefore` | upstream-python/bench/strategies.py:744-751 | the backwards search marks the last markable message end before the limit |
| `Rewriter.Outgoing.StripSafeMarks` | upstream-python/bench/strategies.py:655-665 | `strip-old-thinking-safe-marks` in place |
| `Rewriter.Outgoing.StripSpreadMarks` | upstream-python/bench/strategies.py:668-704 | `strip-old-thinking-spread-marks` in place |

## Left out

- File, log and HTTP handling, argument parsing, report printing, thresholds and verdict texts.
- Token estimation and hashing internals: the estimator and the hash are parameters, see above.
- Floating point: times, weights and bills are reals, and `round` is half-to-even on rationals. The fractions of
  `pair-back-*`, `shipped-back-*`, `spread-wire-*` and `anchor-1h-*` are not computed; their target position is
  any position.
- Message content other than missing, a string or a list of blocks, and `ttl` values that are truthy but not
  strings, which are taken as the default tier.
- Strategies that match text or read memory files (`mem-*`, `split-volatile-counter`, `cache-behind-counter`),
  the `offload-floor-*` and `thinking-anchor-*` arms, `tail-5m-stable-1h` (two `force-ttl` passes), the arms that
  strip reasoning without holding the markers back, and `strip-thinking-cache-behind`, which finds messages by
  value equality.
- The alias spellings of tool names: the verbatim and exclusion lists are predicates on the name.
- ReasoningRuns.NothingInvalidated: before the first assistant message the strategies forward the body as it came,
  so there the claim takes the client's markers to be objects, not to move back, and to lie no further on than the
  arm's own seal would, and its messages to hold no reasoning.
- Aliasing: a body, its messages and its blocks are values that the rewriting classes replace, so the deep
  copies that keep one arm from editing another are not represented.
- The `transform` and `mark` hooks of `splice_corpus` and the arms built on them: the forwarded body of a turn is
  any list of messages.
- `validate`, `damage` and the ledger comparison of `cachesim.py`; the worst-turn lists of `report_defects`.
- Poster modes other than posting a draft (`--note`, `--resolve`), the refusal when the merge request has moved,
  inline positions, and two poster processes at the same time.
- The stage table and segments of `analyze`, and the decision rules built on it.
- Diagnose.FalseAlarms: conversations in scopes of their own, all of whose turns after the first are in the steady
  stage; two conversations that share a scope, and so may read each other's prefixes, are not covered.
- `load` in `cache-ratio-diagnose.py` beyond the offset it starts from.
