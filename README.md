# Honeypot scam detector — a Dafny model

This project models the per-message pipeline of an agentic honeypot service.
The service answers suspected scam messages with a believable persona and
extracts payment intelligence from the conversation. One message goes through
these steps:

- an API-key gate lets it in;
- the stored conversation is loaded;
- a keyword and link-shortener heuristic is fused with an external
  classifier's verdict;
- the user's turn is stored;
- on a scam, the agent picks a strategy, updates its trust and curiosity
  levels, and writes a reply; otherwise it gives a fixed neutral reply;
- the reply is stored as the assistant's turn;
- the conversation is reloaded, UPI ids, bank accounts, IFSC codes, URLs and
  phone numbers are extracted from it, and engagement metrics are computed.

Files and modules:

| file | module | what it holds |
|---|---|---|
| `wrappers.dfy` | `Wrappers` | `Option` and `Result` (`Ok(value)` / `Err`, a collaborator that raised) |
| `text.dfy` | `Text` | the Python string operations used: ASCII case mapping, `strip`, `split`, `join`, `in`, `endswith` |
| `collections.dfy` | `Collections` | de-duplication in first-occurrence order |
| `schemas.dfy` | `Schemas` | the records, their defaults and the bounds the validator enforces |
| `history.dfy` | `History` | the `"role: content\n"` transcript loop and Python's `items[-n:]` |
| `detection.dfy` | `Detection` | the heuristic (loops as methods), the fusion and the fallback |
| `extractor.dfy` | `Extractor` | the UPI filter, phone normalisation (a loop), de-duplication, the merge |
| `agent.dfy` | `Agent` | the state transition, strategy choice, reply clean-up, canned replies |
| `metrics.dfy` | `Metrics` | turns, duration, entity count and the capped score |
| `store_spec.dfy` | `StoreSpec` | the three stores as values: what each operation returns and leaves behind |
| `store.dfy` | `Store` | the stores as classes that update their tables in place, proved equal to `StoreSpec` |
| `router.dfy` | `Router` | `process_message` as methods over the store object, proved equal to the function `Process` |
| `middleware.dfy` | `Middleware` | the accept / 401 / 403 decision |
| `config.dfy` | `Config` | parsing the comma-separated key list |

Units:

- Trust and curiosity levels are integers in hundredths (0..100). Every change
  the agent makes is a multiple of 0.01, so this is exact.
- The engagement score is in hundredths of a point (0..10000).
- Detection confidences are exact `real`s.
- Timestamps are integer microseconds. One clock value `now` serves a whole
  request.

Collaborators are parameters:

- the language-model calls are functions returning a `Result`;
- what each regular expression matches or finds is given as input;
- the remote key-value server is a map;
- whether each request to that server goes through is a `Link`. `Up` means it
  succeeds. `Down` means a connection or timeout error. `Broken` means any
  other error, including a record that does not parse.

## Model

| member | source | states |
|---|---|---|
| Schemas.DefaultAgentState | app/models/schemas.py:45-50 | a fresh state has trust 0.5, curiosity 0.7, strategy "neutral", scam not confirmed, and is within bounds |
| Schemas.NewConversation | app/models/schemas.py:60-66 | a conversation built from an id and turns gets the default state and starts and ends "now" |
| Schemas.EmptyIntelligence | app/models/schemas.py:22-28 | all five intelligence lists default to empty |
| Schemas.ParseStrategy | app/models/schemas.py:69-79 | a StrategyChoice label is accepted exactly when it is one of the six strategy names |
| Schemas.ParseStrategyLabel | app/models/schemas.py:69-79 | every one of the six strategies is accepted under its own label |
| Schemas.StrategyLabelInjective | app/models/schemas.py:71-78 | no two strategies share a label |
| Schemas.HistoryOf | app/api/router.py:62-66 | the history handed to the services has one role/content item per stored turn, in order |
| History.BuildTranscript | app/services/detection.py:106-111 | the loop appending "role: content\n" yields the rendering of the items; a missing role reads as "user", a missing content as "" |
| History.RenderAppend | app/services/extractor.py:124-128 | the transcript of a concatenation is the concatenation of the transcripts, so each turn contributes its own line |
| History.LastN | app/services/detection.py:108 | `items[-n:]` keeps the last n items, or all of them when there are fewer or n is 0 (`items[-0:]` is the whole list) |
| History.LastNIgnoresOlder | app/services/detection.py:108 | items older than the last five never reach the classifier's context |
| Collections.Dedup | app/services/extractor.py:74-92 | the result has no duplicates and holds exactly the input's elements |
| Collections.DedupPrefixStable | app/services/extractor.py:84-89 | entries found in an earlier prefix keep their place when the input grows |
| Collections.DedupIdempotent | app/services/extractor.py:92 | de-duplicating a duplicate-free list changes nothing |
| Text.Lower | app/services/detection.py:68 | lower-casing maps every character and keeps the length |
| Text.Upper | app/services/extractor.py:77 | upper-casing maps every character and keeps the length |
| Text.LowerAppend | app/services/extractor.py:70 | lower-casing distributes over concatenation |
| Text.TrimStart | app/agents/honeypot_agent.py:127 | `lstrip` drops the longest prefix of stripped characters and nothing more |
| Text.TrimEnd | app/agents/honeypot_agent.py:127 | `rstrip` drops the longest suffix of stripped characters and nothing more |
| Text.Strip | app/config.py:34 | `strip` returns a slice `s[i..j]` of its input that neither starts nor ends with a stripped character, and every character cut off before `i` or after `j` is one of the stripped characters |
| Text.StripUnchanged | app/config.py:34 | a string with nothing to strip at either end comes back unchanged |
| Text.ContainsIff | app/services/detection.py:68 | `sub in s` holds exactly when `sub` occurs at some position of `s` |
| Text.Split | app/config.py:34 | `split` always yields at least one piece |
| Text.SplitCount | app/config.py:34 | `split` on one character yields one more piece than there are separators |
| Text.SplitPiecesFree | app/config.py:34 | no piece of a split contains the separator |
| Text.SplitWithoutSeparator | app/config.py:34 | text without the separator splits into itself alone |
| Text.JoinSplit | app/services/extractor.py:115-117 | joining the pieces of a split with the same separator gives the text back |
| Text.JoinContainsEach | app/services/extractor.py:115-117 | every joined piece occurs in the joined text |
| Detection.KeywordCountIsMatchCount | app/services/detection.py:58-61 | the keyword count is the number of matching patterns, so each pattern adds at most one |
| Detection.AnySuspiciousIff | app/services/detection.py:64-70 | the shortener flag is set exactly when some URL contains a listed shortener name |
| Detection.MatchCountBounds | app/services/detection.py:20-33 | the keyword part lies in 0..12, and the shortener bonus is 0 or 2 however many URLs match |
| Detection.HeuristicConfidenceTable | app/services/detection.py:77-82 | count 0 gives 0.1, 1 gives 0.4, 2 gives 0.5, 3 gives 0.8, 4 or more give 0.9 |
| Detection.Heuristic | app/services/detection.py:72-82 | the heuristic says scam exactly when the final count is at least 1, with a confidence in [0.1, 0.9] |
| Detection.HeuristicDetection | app/services/detection.py:44-82 | the counting loop and the nested URL loop with its early exit compute the heuristic verdict |
| Detection.RoundHundredths | app/services/detection.py:152 | `round(x, 2)` lies within half a hundredth of x and keeps [0, 1] |
| Detection.Combine | app/services/detection.py:131-141 | the fused verdict is scam iff either side says scam; confidence is max, average or min, so it lies between the two |
| Detection.Fuse | app/services/detection.py:128-160 | a failed call returns the heuristic pair unrounded; a reply gives the combined verdict with its confidence rounded to hundredths, falling back to the heuristic pair only when the rounded value leaves [0, 1]; the result is valid whenever the heuristic pair is |
| Detection.FusedVerdict | app/services/detection.py:132-153 | with both confidences in [0, 1] the result is exactly the combined verdict with rounded confidence: scam iff either says so, confidence within rounding of a value between the two |
| Detection.BothScamTakesMaximum | app/services/detection.py:132-134 | when both sides say scam, 0.4 and 0.9 fuse to 0.9, the larger |
| Detection.Detect | app/services/detection.py:84-160 | `detect` never fails, and its result passes the validator |
| Detection.ShortenerMatchIsSubstring | app/services/detection.py:66-70 | the shortener test is a substring test: "http://test.com" counts as a "t.co" link |
| Detection.BitLyLinkIsSuspicious | app/services/detection.py:37 | a bit.ly link is a shortener link |
| Detection.KycOtpKeywords | app/services/detection.py:58-61 | four matching patterns count four |
| Detection.KycOtpExample | app/services/detection.py:58-82 | four keywords plus a bit.ly link count 6 and give a scam verdict with confidence 0.9 |
| Extractor.UpiSuffixShape | app/services/extractor.py:47-51 | each of the 19 suffixes is '@' followed by a name without '@' |
| Extractor.LowerKeepsAt | app/services/extractor.py:70 | lower-casing neither adds nor removes an '@' |
| Extractor.SuffixAfterAt | app/services/extractor.py:70 | a string with a single '@' ends with a listed suffix exactly when the text after '@' is that suffix's name |
| Extractor.UpiKeptIffListedSuffix | app/services/extractor.py:66-71 | a UPI candidate is kept iff its lower-cased text after '@' is one of the listed suffixes |
| Extractor.FilterKnownUpi | app/services/extractor.py:68-71 | the comprehension keeps exactly the candidates with a listed suffix |
| Extractor.NormalisePhone | app/services/extractor.py:87 | a normalised phone has no '-' and no whitespace, is no longer, and is unchanged when there was nothing to drop |
| Extractor.NormaliseAll | app/services/extractor.py:85-87 | every phone match is normalised, in order |
| Extractor.NormaliseAppend | app/services/extractor.py:87 | normalisation works piece by piece |
| Extractor.RegexIntelligence | app/services/extractor.py:56-97 | no category has duplicates; each holds exactly its matches (UPI filtered, phones normalised); phones are free of '-' and whitespace |
| Extractor.RegexExtraction | app/services/extractor.py:56-97 | with the IFSC pattern run on the upper-cased text and the others on the text itself, the phone loop that skips values already seen computes the regex-only result |
| Extractor.PhonesKeepFirstOccurrenceOrder | app/services/extractor.py:84-89 | phones found in an earlier prefix of the matches come first, in the same order |
| Extractor.PhoneNormalisationExample | app/services/extractor.py:87 | a hyphen or a space between digit groups is dropped |
| Extractor.DigitsKept | app/services/extractor.py:87 | digits are kept |
| Extractor.PhoneDedupExample | app/services/extractor.py:83-89 | the hyphen and space spellings of one number give one entry |
| Extractor.UpperCharIdempotent | app/services/extractor.py:77 | upper-casing an upper-cased character changes nothing |
| Extractor.SliceOfUpperIsUpper | app/services/extractor.py:77 | a run of characters taken from upper-cased text is upper-case |
| Extractor.IfscCodesUpperCase | app/services/extractor.py:77 | in the extraction pipeline, given a pattern engine that returns pieces of the text it searched, every IFSC code of the pattern pass is upper-case and is kept in the merged result |
| Extractor.IfscMatchesUpperCase | app/services/extractor.py:77 | IFSC matches taken from an upper-cased text stay upper-case after de-duplication |
| Extractor.ExtractionTextContainsEachTurn | app/services/extractor.py:115-117 | every turn's content, a missing one read as "", is part of the text the patterns run on |
| Extractor.Union | app/services/extractor.py:147-153 | `list(set(a + b))` holds each entry of a and of b exactly once |
| Extractor.Merge | app/services/extractor.py:137-167 | on success, each category is the union of the regex and external lists, a missing category reading as empty; on failure, the regex result unchanged |
| Extractor.RegexResultKept | app/services/extractor.py:146-167 | nothing the patterns found is lost, whichever way the external call goes |
| Extractor.Extract | app/services/extractor.py:99-167 | `extract` runs the regex pass over the joined text and the external call over the transcript built in a loop |
| Agent.UpdateAgentState | app/agents/honeypot_agent.py:74-93 | levels stay in [0, 1]; the strategy is the chosen label; confirmation is old OR detected; curiosity rises to min(1, curiosity + 0.1) on a first detection and is unchanged otherwise; trust becomes the old trust plus the strategy's delta, clamped to [0, 1] |
| Agent.TrustExamples | app/agents/honeypot_agent.py:80-86 | from trust 0.50: delay 0.45, confirmation 0.47, payment or link 0.52, concern unchanged |
| Agent.ApplyStepsKeepsValid | app/agents/honeypot_agent.py:74-90 | any chain of updates keeps both levels in [0, 1] |
| Agent.CuriosityRisesAtMostOnce | app/agents/honeypot_agent.py:77-78 | along any chain of updates the final curiosity is min(1, start + 0.1) if the chain first confirms the scam, and the starting value otherwise |
| Agent.ConfirmationIsMonotone | app/agents/honeypot_agent.py:92 | at the end of a chain the flag is the old flag or any detection along it; it is never cleared |
| Agent.ChooseStrategy | app/agents/honeypot_agent.py:54-63 | a failed call or a label outside the six gives ("neutral", "Fallback to neutral"); a missing label reads as "neutral" |
| Agent.MissingLabelIsNeutral | app/agents/honeypot_agent.py:54-59 | an answer without a strategy selects "neutral" with the given reasoning |
| Agent.UnknownLabelFallsBack | app/agents/honeypot_agent.py:59-63 | an answer with an unknown label ends in the fallback choice |
| Agent.TurnCount | app/agents/honeypot_agent.py:32 | the turn count is 0 without a conversation, else the number of turns |
| Agent.RecentItems | app/agents/honeypot_agent.py:43-46 | the items are exactly the last min(4, n) turns of the conversation's n turns, in order; none without a conversation |
| Agent.SelectStrategy | app/agents/honeypot_agent.py:24-63 | `select_strategy` never fails and always returns one of the six strategies |
| Agent.SliceOfSlice | app/agents/honeypot_agent.py:127 | a slice of a slice is a slice of the original |
| Agent.CleanReply | app/agents/honeypot_agent.py:127 | the cleaned reply is a contiguous part of the raw reply and neither starts nor ends with a single quote |
| Agent.CleanReplyKeepsPlainText | app/agents/honeypot_agent.py:127 | a reply with nothing to strip at either end is returned unchanged |
| Agent.FallbackReply | app/agents/honeypot_agent.py:136-146 | a known strategy gets its own canned line, any other label the generic line |
| Agent.GenerateReply | app/agents/honeypot_agent.py:95-134 | a failed call gives the fallback line for the strategy; otherwise the cleaned reply |
| Agent.NeutralReply | app/agents/honeypot_agent.py:148-150 | the neutral reply is the same line whatever the message |
| Metrics.TruncatedSeconds | app/services/metrics.py:41 | `int(delta.total_seconds())` truncates toward zero |
| Metrics.CalculateMetrics | app/services/metrics.py:30-48 | no conversation gives zeros; turns is the number of stored turns; duration is the truncated seconds when non-negative, else 0 |
| Metrics.MetricsExample | app/services/metrics.py:34-48 | two turns over 90.5 seconds give turns 2 and duration 90 |
| Metrics.EntityCount | app/services/metrics.py:61-67 | the entity count is zero exactly when every category is empty |
| Metrics.UnionKeepsLength | app/services/extractor.py:147-153 | a union with a duplicate-free list is at least as long as that list |
| Metrics.MergeKeepsEntityCount | app/services/metrics.py:61-67 | merging in the external answer never lowers the entity count of the regex result |
| Metrics.RoundTenth | app/services/metrics.py:105 | `round(x, 1)` is a multiple of 0.1 within 0.05 of x |
| Metrics.RoundTenthMonotone | app/services/metrics.py:105 | rounding to a tenth is monotone |
| Metrics.EngagementScore | app/services/metrics.py:86-105 | the score lies in [0, 100] for valid metrics and is a multiple of 0.1 |
| Metrics.ScoreCaps | app/services/metrics.py:92-105 | components are capped at 30, 20 and 50, the total at 100, which 15 turns, 2000 s and 5 entities reach |
| Metrics.ScoreMonotone | app/services/metrics.py:87-105 | more turns, a longer duration or more entities never lower the score |
| Metrics.ScoreExample | app/services/metrics.py:87-105 | three turns, a minute and one entity score 16.6 |
| StoreSpec.Lookup | app/memory/store.py:56-61 | a read finds the record filed under the id, or None |
| StoreSpec.LocalSave | app/memory/store.py:63-70 | saving files the record under its id and leaves every other id alone |
| StoreSpec.Appended | app/memory/store.py:83-84 | appending adds the turn at the end and refreshes last_updated; id, state and start stay |
| StoreSpec.LocalAppend | app/memory/store.py:72-88 | an unknown id gets a new conversation with exactly [turn]; a known one gets the turn at the end; other ids are untouched |
| StoreSpec.WithState | app/memory/store.py:95-96 | updating replaces only the agent state and last_updated |
| StoreSpec.LocalUpdate | app/memory/store.py:90-100 | an unknown id gives False and no change; otherwise only that record's state and time change |
| StoreSpec.LocalSaveThenGet | app/memory/store.py:56-66 | a saved record reads back |
| StoreSpec.LocalUnsavedReadsNone | app/memory/store.py:56-66 | an id never saved reads as None after another record is saved |
| StoreSpec.LocalAppendTwice | app/memory/store.py:72-88 | two appends to an unknown id leave exactly those two turns, in order, with the default state |
| StoreSpec.RemoteKey | app/memory/store.py:116-118 | the key is "honeypot:conversation:" followed by the id |
| StoreSpec.RemoteKeyInjective | app/memory/store.py:116-118 | different conversations never share a key |
| StoreSpec.RemoteGet | app/memory/store.py:120-132 | a read goes to the server, to the fallback table on a connection or timeout error, and gives None on any other error |
| StoreSpec.RemoteGetFindsId | app/memory/store.py:120-132 | in a consistent store, whatever a read returns carries the id asked for |
| StoreSpec.RemoteGetFindsIdInvariant | app/memory/store.py:154-159 | the read inside append and update yields a record with the right id, or the new empty record for it |
| StoreSpec.RemoteSave | app/memory/store.py:134-149 | a write goes to the server, to the fallback table on a connection or timeout error, and gives False with no change on any other error |
| StoreSpec.RemoteAppend | app/memory/store.py:151-166 | append succeeds exactly when the write does; the record written is the one read (a new empty one if the read finds nothing) with the turn added, and it goes to the server key, to the fallback table, or nowhere, as the write goes |
| StoreSpec.RemoteUpdate | app/memory/store.py:168-180 | update gives False and no change when nothing is read; otherwise the record read, with the new state, goes to the server key, to the fallback table, or nowhere, as the write goes, and the answer is whether it was written |
| StoreSpec.AppendToEmpty | app/memory/store.py:155-161 | appending to the empty record made for an unknown id gives the same record the local store creates |
| StoreSpec.RemoteAppendWhenUp | app/memory/store.py:151-166 | while the server answers, append changes only the server record for the id |
| StoreSpec.RemoteAppendWhenDown | app/memory/store.py:127-129 | during an outage, append is exactly the local append on the fallback table |
| StoreSpec.RemoteUpdateWhenUp | app/memory/store.py:168-180 | while the server answers, update rewrites the server record alone, and refuses an id the server does not hold |
| StoreSpec.ReadFailureOverwritesServerRecord | app/memory/store.py:151-166 | a read that misses the server followed by a write that reaches it leaves the server record holding only the new turn |
| StoreSpec.MixedLinkLosesHistory | app/memory/store.py:151-166 | a two-turn server history is cut to one turn when the read fails and the write succeeds |
| StoreSpec.RemoteUpdateWhenDown | app/memory/store.py:168-180 | during an outage, update is exactly the local update on the fallback table |
| StoreSpec.NoResyncAfterOutage | app/memory/store.py:144-146 | a record saved during an outage is not copied to the server and reads as missing once it is back |
| StoreSpec.RemoteAppendOthersUnchanged | app/memory/store.py:151-166 | an append on one id leaves every other id's record alone on both sides |
| StoreSpec.Initialize | app/memory/store.py:198-221 | the remote store is used exactly when it is enabled and the first ping answers; it starts with an empty fallback |
| StoreSpec.Ready | app/memory/store.py:228-250 | every operation initialises the facade first, and only once |
| StoreSpec.BackendChosenOnce | app/memory/store.py:228-250 | once a backend is chosen, later settings are never consulted |
| StoreSpec.FacadeHealth | app/memory/store.py:252-256 | health is False before initialisation, True for the local table, the ping otherwise |
| StoreSpec.FacadeOperationsKeepConsistent | app/memory/store.py:228-250 | every facade operation leaves it initialised, with each record filed under its own id or key |
| StoreSpec.ReadyKeepsConsistent | app/memory/store.py:198-221 | initialisation keeps the stores consistent |
| StoreSpec.LocalFacadeAppendThenGet | app/memory/store.py:198-244 | with the local backend, chosen because the remote store is disabled or its first ping failed, every append succeeds and a read shows the new turn last |
| Store.InMemoryStore.constructor | app/memory/store.py:52-54 | a new in-process store is empty |
| Store.InMemoryStore.Get | app/memory/store.py:56-61 | the read is `Lookup` on the table |
| Store.InMemoryStore.Save | app/memory/store.py:63-70 | the table becomes `LocalSave` of the old one, and the call succeeds |
| Store.InMemoryStore.AppendTurn | app/memory/store.py:72-88 | the table becomes `LocalAppend` of the old one, and the call succeeds |
| Store.InMemoryStore.UpdateAgentState | app/memory/store.py:90-100 | table and answer are `LocalUpdate` of the old table |
| Store.InMemoryStore.HealthCheck | app/memory/store.py:102-104 | the in-process store is always healthy |
| Store.RemoteStore.constructor | app/memory/store.py:110-114 | the remote store starts with the server's contents and an empty fallback table |
| Store.RemoteStore.Get | app/memory/store.py:120-132 | the read is `RemoteGet` |
| Store.RemoteStore.Save | app/memory/store.py:134-149 | both sides and the answer become `RemoteSave` of the old state |
| Store.RemoteStore.AppendTurn | app/memory/store.py:151-166 | both sides and the answer become `RemoteAppend` of the old state |
| Store.RemoteStore.UpdateAgentState | app/memory/store.py:168-180 | both sides and the answer become `RemoteUpdate` of the old state |
| Store.RemoteStore.HealthCheck | app/memory/store.py:182-188 | healthy exactly when the ping answers |
| Store.MemoryStore.constructor | app/memory/store.py:194-196 | a new facade has no backend yet |
| Store.MemoryStore.Initialize | app/memory/store.py:198-221 | the facade's contents become `StoreSpec.Initialize` of the settings |
| Store.MemoryStore.EnsureReady | app/memory/store.py:229-231 | the facade becomes `Ready`; an initialised one keeps its backend |
| Store.MemoryStore.Get | app/memory/store.py:228-232 | state and result are `FacadeGet` of the old state |
| Store.MemoryStore.Save | app/memory/store.py:234-238 | state and result are `FacadeSave` of the old state |
| Store.MemoryStore.AppendTurn | app/memory/store.py:240-244 | state and result are `FacadeAppend` of the old state |
| Store.MemoryStore.UpdateAgentState | app/memory/store.py:246-250 | state and result are `FacadeUpdate` of the old state |
| Store.MemoryStore.HealthCheck | app/memory/store.py:252-256 | the answer is `FacadeHealth`, and no initialisation happens |
| Router.Engage | app/api/router.py:85-106 | without a scam there is no state update and the reply is the neutral line; with one, the new state is the agent's update of the stored state under the selected strategy (scam confirmed, valid when the old state was), and the reply is written for that strategy and state from the given history |
| Router.Respond | app/api/router.py:116-146 | a failed reload is an HTTP 500; otherwise the response carries the verdict, the reply, the metrics of the reloaded record and the intelligence extracted from its full history |
| Router.Load | app/api/router.py:52-60 | loading gives the stored conversation, or a fresh one that is not stored |
| Router.Intake | app/api/router.py:62-80 | detection runs on the history before the message; then the user's turn is appended |
| Router.AgentTurn | app/api/router.py:85-106 | strategy, state update and reply happen only on a scam |
| Router.EngageAndReply | app/api/router.py:85-114 | the state update, if any, is stored before the assistant's turn |
| Router.Converse | app/api/router.py:62-114 | the user's turn, then the agent's turn |
| Router.Answer | app/api/router.py:62-146 | both turns, then the reload and the response |
| Router.Finish | app/api/router.py:116-134 | intelligence and metrics are computed from the conversation reloaded after both appends |
| Router.ProcessMessage | app/api/router.py:28-146 | the store's new contents and the outcome are exactly `Process` of the old contents |
| Router.Prior | app/api/router.py:53-60 | an unknown id starts from a fresh conversation with the default agent state |
| Router.LocalRunIsEngagement | app/api/router.py:74-114 | a request on the local table is the user's append followed by the agent's turn |
| Router.LocalStoreEngagement | app/api/router.py:91-114 | on the local table, storing the agent's turn through the facade is the local update and append |
| Router.LocalConverse | app/api/router.py:62-114 | on the local table, both turns of a request are the local appends and update |
| Router.LocalProcess | app/api/router.py:28-146 | with the local table, the whole request is the local run, answered from the final record |
| Router.LocalRunAppendsTwoTurns | app/api/router.py:74-114 | a request appends exactly two turns, user then assistant; the verdict is detection on the prior history; other conversations are untouched |
| Router.LocalRunState | app/api/router.py:86-106 | the stored state changes only on a scam, and then exactly as the agent's update says; otherwise the reply is the neutral line |
| Router.LocalEngagementEffect | app/api/router.py:91-114 | the agent's turn adds one turn at the end and stores the new state if there is one |
| Router.LocalEngagementOthers | app/api/router.py:91-114 | the agent's turn touches no other conversation |
| Router.ReplyHistoryExcludesCurrentMessage | app/api/router.py:62-101 | detection and the reply writer get the stored history without its last item, the user's current message |
| Router.RemoteRunAppendsTwoTurns | app/api/router.py:50-146 | with every server request going through, the server record gains exactly the user's turn and the reply, and the answer counts both |
| Router.RemoteConverseUp | app/api/router.py:74-114 | with the server reachable, the conversation step appends the user's turn then the reply to the server record |
| Router.RemoteTwoTurnsUp | app/api/router.py:80-114 | with the server reachable, the user's append and the agent's turn add two turns in that order |
| Router.RemoteAppendUserUp | app/api/router.py:74-80 | with the server reachable, the user's turn goes to the end of the server record |
| Router.RemoteStoreEngagementUp | app/api/router.py:93-114 | with the server reachable, the agent's turn adds the reply at the end of the server record |
| Router.RemoteProcessUnfold | app/api/router.py:50-60 | with the load going through, the request continues from the server's record or a new empty one |
| Router.RemoteFinishUp | app/api/router.py:116-131 | with the server reachable, the reload returns the server record and the answer is computed from it |
| Router.ReloadFailureIsServerError | app/api/router.py:116-146 | a failed final reload makes the request an HTTP 500, even after both turns were stored |
| Middleware.StatusCode | app/api/middleware.py:30-50 | only a refusal carries a status code: 401 or 403 |
| Middleware.Dispatch | app/api/middleware.py:21-53 | excluded paths are forwarded; 403 exactly for a key outside a non-empty list; 401 exactly for a missing or empty key on a guarded path; on a guarded path a non-empty key is forwarded exactly when the list is empty or holds it |
| Middleware.MissingKeyBeforeOpenAccess | app/api/middleware.py:27-43 | with no keys configured, a missing or empty key is still refused with 401, and any other key is forwarded |
| Middleware.BlankKeyRefused | app/api/middleware.py:45-50 | a blank key is never a configured key, so it is refused once any key is configured |
| Middleware.MessageEndpointNeedsKey | app/api/middleware.py:19 | the message endpoint is not excluded and always needs a key |
| Config.StripEach | app/config.py:34 | every piece is stripped of whitespace, in order |
| Config.KeepNonEmpty | app/config.py:34 | the filter keeps exactly the non-empty pieces, each as often as it occurs, in order |
| Config.ApiKeysList | app/config.py:29-34 | an empty setting gives no keys; no key is empty or has whitespace at either end; keys keep the order of their pieces; the keys are exactly the non-empty stripped pieces, each as often as it occurs; there are at most commas + 1 keys |
| Config.SliceKeepsAbsent | app/config.py:34 | stripping cannot add a character |
| Config.KeysHaveNoComma | app/config.py:34 | no key contains a comma |
| Config.ExampleSplit | app/config.py:34 | "a, b,," splits into "a", " b", "" and "" |
| Config.ExampleStripSpace | app/config.py:34 | " b" strips to "b" |
| Config.ExampleKeep | app/config.py:34 | the empty pieces are dropped, leaving "a" and "b" |
| Config.SingleKey | app/config.py:29-34 | a setting holding one clean key yields exactly that key |
| Config.RepeatedKeyKeptTwice | app/config.py:29-34 | a key listed twice, "a,a", is kept twice |

## Left out

- The language-model collaborator: app/services/llm.py is not part of this model. Every call to it is a parameter that returns a value or fails. Prompt texts and prompt loading are left out.
- The regular-expression engine, including `\b` and `re.IGNORECASE` semantics. Which keyword patterns match, which URLs and candidates `findall` returns, and what the IFSC pattern finds are inputs.
- Metrics.RoundTenth, Detection.RoundHundredths: Python's `round` works on binary floats and rounds halves to even. The model rounds the exact value with halves rounded up, so a result can differ by one unit in the last place.
- Detection confidences are exact reals. Float error in `0.5 + count * 0.1` and in the averages is not modelled.
- Text.Lower, Text.Upper, Text.Whitespace: only ASCII case mapping and the ASCII whitespace characters are modelled. Python's Unicode-aware `lower`, `upper`, `strip` and `\s` also act on non-ASCII characters.
- Extractor.RegexIntelligence: `list(set(...))` has no defined order in Python. The model keeps first-occurrence order, and every property except the phone order holds for any order. The phone list is built in first-occurrence order by the source itself.
- Extractor.PhoneNormalisationExample: the example uses short digit groups ("98-76", "98 76") rather than full ten-digit numbers.
- The real clock. Timestamps are integer microseconds, and one value `now` stands for every `utcnow()` call of a request.
- Redis TTL expiry, JSON serialisation, `close()`, and constructing the redis client from its URL and password. The remote server is a map, and each request's fate is a `Link`.
- The exceptions caught in `InMemoryStore` and around the remote read-modify-write are not modelled separately. Operations on maps cannot fail, and the inner calls already handle their own errors.
- Router.ProcessMessage: the boolean results of `append_turn` and `update_agent_state` are ignored, as in the source. Only a failed final reload leads to the HTTP 500 path. Exceptions that collaborators catch themselves become their fallbacks. Two template formats run outside those try blocks: `STRATEGY_PROMPT.format` (app/agents/honeypot_agent.py:34-39) and `AGENT_PERSONA_PROMPT.format` (app/agents/honeypot_agent.py:106). A failure there would become the HTTP 500 of app/api/router.py:144-146. Prompt texts are not modelled, so that path is left out.
- Agent.ChooseStrategy, Detection.Fuse, Extractor.Merge: a language-model reply is modelled as optional typed fields, so a JSON `null` or a value of another type cannot be expressed. In the source, `"strategy": null` fails the `StrategyChoice` validation inside the try block and gives the neutral fallback (app/agents/honeypot_agent.py:54-63). `is_scam` is read by Python truthiness (app/services/detection.py:128-138), so a string such as `"false"` picks the scam branch. When the heuristic also says scam, that raw value is handed to the result model, which converts it by its own rules. A `null` confidence makes `float` raise and gives the heuristic pair. In the extractor, a `null` or non-string entry in a returned list fails the `Intelligence` validation inside the try block (app/services/extractor.py:137-144). The model expresses any such malformed reply as the collaborator's `Err`, for which `Merge` gives the regex result alone, as the source does.
- Async concurrency and lost updates between overlapping requests for the same conversation.
- app/main.py, the module singletons, logging, CORS and the `__init__.py` re-exports.
- Settings loading from the environment and the `.env` file. The middleware takes the key list as a parameter, and `Config.ApiKeysList` models its parsing.
