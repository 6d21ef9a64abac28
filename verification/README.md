# LiveOPS backend: a verified model

A NestJS backend controls live broadcasts: it composes video, keeps track of who is online, runs automation rules,
caches scripts, talks to OBS, vMix and LiveKit, and signs users in. Most of it is plumbing between HTTP and a database.
This project models the parts that compute, compile or keep a protocol, one module for each component, and proves what
they are for.

| module | models |
|---|---|
| `FilterGraph`, `Compositor`, `LayoutPresets` | the FFmpeg filter graphs built for screen layouts, with an interpreter for them, and the inputs of a composite hub |
| `Presence` | sockets, users, productions and grace timers of the presence service |
| `AutomationEngine`, `AutomationRuns`, `AutomationPoller` | rule execution as interleaved runs; runs brought to their end; the poller and one run as code |
| `AutomationConditions` | the condition evaluator, the trigger loop and the dry run |
| `Bits`, `Base32`, `Totp` | the base32 codec on a 32-bit accumulator, one-time passwords |
| `ScriptCache` | the write-behind cache between collaborative editing, Redis and Postgres |
| `ObsConnections`, `ObsManager` | OBS connect attempts, reconnect timers and backoff; the methods on mutable fields |
| `VmixPolling`, `VmixManager` | vMix polling hysteresis and change feed; the manager of instances, intervals and requests |
| `AuthSessions`, `LoginLockout` | refresh-token rotation and revocation; the login attempt counter |
| `Timeline` | the life cycle of timeline blocks |
| `CloudEgress` | starting and stopping a cloud stream when any call inside may fail |

Each stateful component is written twice. A `State` value with step functions is the specification, and the invariants
and theorems over all runs are proved about it. A class with the fields of the original object has the methods of the
original; each method that changes state is proved to take the old state to exactly the state its step function, or a
run of steps, gives. In the automation, cache, OBS and vMix machines a step ends where the original awaits something,
and any other step may follow. Calls for sessions, logins, timeline blocks and cloud streams are one step each.
Outcomes of the database, Redis, sockets, the clock, bcrypt and HMAC are parameters, in cloud streams one for every
point inside a call that may fail.

Some promises do not hold of the code as it is. They are not dropped: the exact condition under which they hold is
proved as an if-and-only-if, and inputs that fail are given.

- A custom layout of one region never writes the `[out]` link its command maps, and a two-source preset whose layout
  lists fewer than two regions gets too few default inputs (`LayoutPresets.DefaultHubAccepted`).
- A log line says that a document Redis refused "will still persist to DB". The flush copies what Redis holds, so it
  does not (`ScriptCache.RefusedStoreIsLost`, `ScriptCache.StoreFaultKeepsInvIff`).
- The time poller looks for a log row and launches the rule in two steps, so a lookup can have gone stale. A launch is
  safe if and only if it does not take the lock after a run for the same activation has succeeded
  (`AutomationRuns.LaunchIsSafeIff`); for every rule and activation there is a run in which one is not
  (`AutomationRuns.StaleLookupLaunchesTwice`).
- A simple condition tells a payload from its flat form if and only if it compares a missing value with a nested field
  (`AutomationConditions.SimpleSeesFlatteningIff`), and a dry run that throws predicts nothing although the engine may
  match (`AutomationConditions.DryRunPredictsEngineIff`).
- A vMix poll that answers after its instance was stopped or replaced reports for the production all the same; the
  production is told the truth exactly in runs without such a report (`VmixManager.ProductionsAreToldTheTruthIff`).
- An address that only begins with "http" is taken to have a scheme (`VmixPolling.ApiUrlHasSchemeIff`).
- A restart of the service forgets which documents are to be copied, which is harmless if and only if Postgres has
  caught up (`ScriptCache.RestartKeepsInvIff`).
- Completing a timeline block again moves its end over blocks that went on air since (`Timeline.OverlapArisesIff`), and
  a reorder changes blocks of other productions when it lists them (`Timeline.ProductionIsolationIff`).
- A cloud egress is lost when LiveKit refuses to stop a live one, or throws although it started one; then no call ever
  reaches it again (`CloudEgress.RecordLostIff`, `CloudEgress.OrphanRunsUntilItEnds`).

## Model

| member | source | states |
|---|---|---|
| Compositor.TileIsNearest | src/streaming/srs/ffmpeg-compositor.service.ts:213-231 | the tile of a region shows its source, and position and size lie within half a pixel of the region's, halves going up |
| Compositor.TileCoversRegion | src/streaming/srs/ffmpeg-compositor.service.ts:213-231 | points inside a region are covered and points outside are not, but for a seam of a pixel at most |
| Compositor.TopRegion | src/streaming/srs/ffmpeg-compositor.service.ts:200-209 | reference meaning of a layout at a point, without sorting: of the regions covering it the one with greatest zIndex, ties to the later in the list; none exactly if none covers it |
| Compositor.ZOrder | src/streaming/srs/ffmpeg-compositor.service.ts:209 | the stable sort: every position once, ascending by zIndex and then by list order |
| Compositor.PaintMeansLayout | src/streaming/srs/ffmpeg-compositor.service.ts:209-235 | painting the sorted regions one over the other shows at every point the topmost region of the unsorted layout, or black |
| Compositor.BuildCustomFilter | src/streaming/srs/ffmpeg-compositor.service.ts:204-238 | the two loops push exactly the graph the theorem below is about |
| Compositor.ChainRun | src/streaming/srs/ffmpeg-compositor.service.ts:212-235 | after k overlays the interpreter holds one picture showing the first k tiles and the sources still to be used; the prefix runs exactly when all regions and the canvas are drawable |
| Compositor.CustomGraphPaintsLayout | src/streaming/srs/ffmpeg-compositor.service.ts:204-238 | main theorem: the graph runs exactly when every region is drawable; every label is written once, before it is read, and read once; the one link left is [out] exactly from two regions on, and shows the layout's meaning at every pixel |
| LayoutPresets.StudioCamPlace | src/streaming/srs/ffmpeg-compositor.service.ts:96-99 | the camera takes a quarter of each side, 40 pixels from the right and the bottom |
| LayoutPresets.PipInsetPlace | src/streaming/srs/ffmpeg-compositor.service.ts:118-121 | place and size of the inset in percent of the output |
| LayoutPresets.StudioCorrect | src/streaming/srs/ffmpeg-compositor.service.ts:95-115 | the studio graph runs exactly when its tiles are drawable, leaves the mapped links only, shows screen, camera inset and optional overlay, and mixes the first two inputs |
| LayoutPresets.PipCorrect | src/streaming/srs/ffmpeg-compositor.service.ts:117-129 | the same for picture in picture, without a mix |
| LayoutPresets.SplitHCorrect | src/streaming/srs/ffmpeg-compositor.service.ts:131-141 | the same for two halves side by side, both heard |
| LayoutPresets.SplitVCorrect | src/streaming/srs/ffmpeg-compositor.service.ts:143-153 | the same for two halves one above the other, both heard |
| LayoutPresets.TripleHCorrect | src/streaming/srs/ffmpeg-compositor.service.ts:155-166 | the same for three columns, all heard |
| LayoutPresets.Grid4Correct | src/streaming/srs/ffmpeg-compositor.service.ts:168-183 | the same for the two-by-two grid, all heard |
| LayoutPresets.PresetsCorrect | src/streaming/srs/ffmpeg-compositor.service.ts:83-198 | every fixed preset compiles to a graph that runs exactly when its tiles are drawable, and then shows the preset's picture and mixes the sources it should |
| LayoutPresets.BuildArgs | src/streaming/srs/ffmpeg-compositor.service.ts:35-79 | the loop lists the inputs; default sizes, graph and audio mapping are those of the layout |
| LayoutPresets.InputsAreNumberedInOrder | src/streaming/srs/ffmpeg-compositor.service.ts:45-48 | FFmpeg's i-th input is the i-th URL |
| LayoutPresets.CommandRenders | src/streaming/srs/ffmpeg-compositor.service.ts:35-79 | the command of a fixed preset reads its inputs in order and renders the picture at the size of the layout, 1920x1080 if it names none; the mix is mapped if there is one |
| LayoutPresets.CommandPaintsLayout | src/streaming/srs/ffmpeg-compositor.service.ts:35-79 | the command of a custom layout of two regions or more runs exactly if they are drawable, and paints the layout at its own or the default size |
| LayoutPresets.DefaultSourceKeys | src/streaming/srs/srs.service.ts:220-229 | how many keys a layout gets by default, numbered from zero |
| LayoutPresets.DefaultsFillLayout | src/streaming/srs/srs.service.ts:220-229 | the default sources are one for each tile the preset can show, or one for each region |
| LayoutPresets.DefaultHubAccepted | src/streaming/srs/srs.service.ts:95-103 | the command built for default sources is one that FFmpeg, taken to refuse sizes below one, accepts if and only if the layout meets a condition a caller can check beforehand |
| Presence.IndexedUpsert | src/websockets/presence.service.ts:52-62 | registering a socket keeps userToSockets the inverse of activeSockets if and only if the socket keeps its user |
| Presence.UpsertKeepsInvIff | src/websockets/presence.service.ts:41-67 | an upsert keeps all indexes and timers consistent if and only if the socket keeps its user, which the service itself does not check |
| Presence.RemoveKeepsInv | src/websockets/presence.service.ts:80-119 | removing a socket keeps all indexes and timers consistent |
| Presence.FireRemovesOwnEntry | src/websockets/presence.service.ts:110-116 | a firing grace timer removes its own entry and no other |
| Presence.StepKeepsInv | src/websockets/presence.service.ts:41-119 | every step keeps: exact inverse index, no empty sets, nobody both online and in grace, live timers one to one with grace entries |
| Presence.ReachableIsConsistent | src/websockets/presence.service.ts:41-119 | so does every run from the empty service |
| Presence.JoinedIsListed | src/websockets/presence.service.ts:69-74 | joining lists the socket in the production, its user is online there, and no other list changes |
| Presence.UpsertedIsOnline | src/websockets/presence.service.ts:41-67 | an upsert shows the presence on its socket, ends the user's grace, and puts the user online in the production it names; other sockets and lists stay |
| Presence.RemovedIsGone | src/websockets/presence.service.ts:80-103 | a removed socket is in no list of any production or user; all others stay where they are |
| Presence.GraceStartsIff | src/websockets/presence.service.ts:83-93 | a grace window starts if and only if a user's last socket goes, with the presence and production it had |
| Presence.TouchedIsSeen | src/websockets/presence.service.ts:168-182 | a touch writes status and time of its socket and nothing else |
| Presence.GraceEndsIff | src/websockets/presence.service.ts:41-119 | a step ends a grace entry if and only if it is the user's return or the user's own timer, and no step alters one |
| Presence.GraceSurvivesRun | src/websockets/presence.service.ts:105-119 | the same over every run |
| Presence.ListedDuringGrace | src/websockets/presence.service.ts:133-154 | a user whose last socket closed is listed in its production as RECONNECTING in every state until then |
| Presence.PresenceService.UpsertPresence | src/websockets/presence.service.ts:41-67 | refines the upsert step on the four maps |
| Presence.PresenceService.AssociateWithProduction | src/websockets/presence.service.ts:69-74 | refines the associate step |
| Presence.PresenceService.RemovePresence | src/websockets/presence.service.ts:80-103 | refines the remove step, for the production the socket was in |
| Presence.PresenceService.DropFromProductions | src/websockets/presence.service.ts:97-102 | the loop removes the socket from every production and drops the sets that become empty |
| Presence.PresenceService.StartReconnectGrace | src/websockets/presence.service.ts:105-119 | refines the start of a grace window: the older timer dies, the new one belongs to the entry |
| Presence.PresenceService.FireTimer | src/websockets/presence.service.ts:110-116 | refines the timer step and tells which production to notify |
| Presence.PresenceService.UpdateStatus | src/websockets/presence.service.ts:168-174 | refines the touch step |
| Presence.PresenceService.Heartbeat | src/websockets/presence.service.ts:176-182 | refines the touch step; OFFLINE becomes IDLE |
| Presence.PresenceService.GetProductionForSocket | src/websockets/presence.service.ts:121-126 | finds a production of the socket; None exactly if it is in none |
| Presence.PresenceService.GetPresenceForProduction | src/websockets/presence.service.ts:133-154 | one entry for each user online in the production or in grace there, with a presence of that user, RECONNECTING only for those not online |
| AutomationEngine.StepKeepsLock | src/automation/automation-engine.service.ts:193-242 | after every step, failures included, executingRules is exactly the rules of the runs in flight and no rule has two |
| AutomationEngine.StepKeepsRows | src/automation/automation-engine.service.ts:228-241 | every finished run has exactly one log row unless log writes failed; SUCCESS only if all its actions succeeded |
| AutomationEngine.StepKeepsOrder | src/automation/automation-engine.service.ts:212-221 | for rules with delays the invoked actions are a growing prefix of the ordered list, never overlapping, none after a failure |
| AutomationEngine.LaunchStarts | src/automation/automation-engine.service.ts:194-221 | a locked rule is skipped; otherwise all actions start at once, in order, if none of them waits, and none does if one waits |
| AutomationEngine.LoggedByRow | src/automation/automation-engine.service.ts:63-69 | a row answers the lookup exactly if it is of the rule, mentions the block and came after the activation |
| AutomationEngine.TicketIsUsedOnce | src/automation/automation-engine.service.ts:63-75 | a lookup that finds no row permits one launch, which uses it up; nothing else permits or uses one |
| AutomationEngine.LogTellsOutcome | src/automation/automation-engine.service.ts:206-239 | the first row of a run says SUCCESS, with the block it was launched for, if all its actions succeeded, and ERROR otherwise, after an action failed |
| AutomationEngine.LaunchStaysSafeIff | src/automation/automation-engine.service.ts:63-75 | a launch leaves no second success for an activation under way if and only if the rule is locked or no run for that activation has succeeded |
| AutomationEngine.StepStaysSafeIff | src/automation/automation-engine.service.ts:62-75 | the same for every step: since the row is written before the lock is released, only duplicate launches are unsafe |
| AutomationEngine.ReachableStates | src/automation/automation-engine.service.ts:193-258 | the lock, row and order invariants hold after every interleaving of lookups, launches, actions, log writes and releases |
| AutomationEngine.FreshIsNoDuplicate | src/automation/automation-engine.service.ts:63-71 | a lookup that still holds at the launch rules out a duplicate |
| AutomationEngine.AtMostOneSuccess | src/automation/automation-engine.service.ts:62-75 | over every interleaving: a run is safe throughout if and only if no launch in it is a duplicate, and then one SUCCESS at most for each rule and activation; launches right after their lookup are enough |
| AutomationRuns.CanSucceed | src/automation/automation-engine.service.ts:201-242 | from every state in which a run has the lock it can be brought to its SUCCESS row, no other run being moved |
| AutomationRuns.DuplicateSucceedsTwice | src/automation/automation-engine.service.ts:63-75 | after every duplicate launch a second SUCCESS for the activation is possible |
| AutomationRuns.LaunchIsSafeIff | src/automation/automation-engine.service.ts:63-75 | a launch is safe, in that no continuation without another duplicate has two successes for one activation, if and only if it is no duplicate |
| AutomationRuns.StaleLookupLaunchesTwice | src/automation/automation-engine.service.ts:63-75 | for every rule and activation a run from the start in which a stale lookup makes a second SUCCESS |
| AutomationPoller.RemainingCountsSeconds | src/automation/automation-engine.service.ts:51-52 | the block ends in at least the seconds computed, and in less than one more |
| AutomationPoller.SomeTickHits | src/automation/automation-engine.service.ts:51-62 | ticks at most a second apart that span the threshold hit it: a discrete intermediate value theorem |
| AutomationPoller.AtMostOneTickHits | src/automation/automation-engine.service.ts:51-62 | ticks at least a second apart hit each threshold once at most |
| AutomationPoller.LateTickMisses | src/automation/automation-engine.service.ts:27-62 | for every threshold and every gap above a second there are ticks within that gap that span it and miss it |
| AutomationPoller.AllThresholdsHitIff | src/automation/automation-engine.service.ts:27-62 | all tick sequences with gaps up to a bound that span a threshold hit it if and only if the bound is a second at most |
| AutomationPoller.DueIff | src/automation/automation-engine.service.ts:48-79 | a tick launches for a block exactly the rules of its production with a trigger for this second before its end, if no row since the activation mentions the block |
| AutomationPoller.SomeTickLaunches | src/automation/automation-engine.service.ts:27-79 | with ticks at most a second apart that span its threshold, a rule without a row since the activation is launched at one of them |
| AutomationPoller.AutomationEngineService.CheckBlock | src/automation/automation-engine.service.ts:48-79 | launches for a block exactly the rules of its production with a trigger due now and no row since the activation |
| AutomationPoller.AutomationEngineService.CheckTimeTriggers | src/automation/automation-engine.service.ts:28-81 | the same over all active blocks |
| AutomationPoller.AutomationEngineService.ExecuteActions | src/automation/automation-engine.service.ts:193-258 | uninterrupted, with any outcomes of actions and log writes, it is a run of the machine: skipped under the lock; otherwise all actions, or with delays those up to the first failure, one row that tells whether all succeeded (none or ERROR when writes fail), and the lock is free again |
| AutomationPoller.AutomationEngineService.InvokeActions | src/automation/automation-engine.service.ts:207-221 | the loop over the actions is a run of the machine that stops exactly at the first failure of a rule with delays |
| AutomationPoller.AutomationEngineService.WriteLogs | src/automation/automation-engine.service.ts:223-239 | a SUCCESS row that cannot be written is answered by an ERROR row; an ERROR row that cannot be written is not |
| AutomationConditions.EveryMeans | src/automation/automation-condition.evaluator.ts:43-47 | AND is true exactly if all conditions are; otherwise the first that is not decides, exceptions included |
| AutomationConditions.AnyMeans | src/automation/automation-condition.evaluator.ts:48-50 | OR is false exactly if all conditions are; otherwise the first that is not decides, exceptions included |
| AutomationConditions.AndNodeMeans | src/automation/automation-condition.evaluator.ts:37-47 | an AND node is true exactly if all its conditions are; otherwise the first that is not decides |
| AutomationConditions.OrNodeMeans | src/automation/automation-condition.evaluator.ts:37-51 | an OR node is false exactly if all its conditions are; otherwise the first that is not decides |
| AutomationConditions.MalformedNodesThrow | src/automation/automation-condition.evaluator.ts:36-51 | primitive nodes and compound nodes without a list throw; nodes that are not compound never do |
| AutomationConditions.LegacyMapMeans | src/automation/automation-condition.evaluator.ts:97-99 | a map that is neither compound nor simple is true exactly if the payload carries all its entries |
| AutomationConditions.LegacyArrayMeans | src/automation/automation-condition.evaluator.ts:97-99 | so is an array, with its indexes for keys |
| AutomationConditions.EqualityMeans | src/automation/automation-condition.evaluator.ts:58-61 | eq holds exactly if the payload carries that primitive value, neq exactly if not |
| AutomationConditions.ContainsMeans | src/automation/automation-condition.evaluator.ts:86-91 | contains holds exactly if the payload has a string with the value as a part |
| AutomationConditions.OperatorsNeedTheirTypes | src/automation/automation-condition.evaluator.ts:62-94 | orderings hold on numbers only, contains on strings only, other operators never |
| AutomationConditions.NumbersAreOrdered | src/automation/automation-condition.evaluator.ts:57-85 | on numbers exactly one of lt, eq, gt holds, the others are their complements, and gt is the right way round |
| AutomationConditions.ModernizePreserves | src/automation/automation-condition.evaluator.ts:32-100 | replacing every legacy condition, map or array, anywhere in a tree by the AND of its eq conditions changes the outcome for no payload |
| AutomationConditions.ModernizeIsModern | src/automation/automation-condition.evaluator.ts:97-99 | and leaves no legacy condition within reach of evaluation |
| AutomationConditions.FlattenPayload | src/automation/automation-condition.evaluator.ts:102-115 | keeps exactly the primitive entries |
| AutomationConditions.EmptyConditionMatches | src/automation/automation-condition.evaluator.ts:25 | null, false, zero and the empty string for a condition match always, and no other condition is skipped |
| AutomationConditions.EvaluateTriggers | src/automation/automation-condition.evaluator.ts:16-30 | the first trigger of the event type that matches or throws decides, on the flat payload; false exactly if none does |
| AutomationConditions.DryRunTries | src/automation/automation.service.ts:267-271 | lists exactly the triggers that match the raw payload; throws exactly if one of them does |
| AutomationConditions.SimpleSeesFlatteningIff | src/automation/automation-condition.evaluator.ts:54-95 | a simple condition tells a payload from its flat form if and only if it compares a missing value, by eq or neq, with an array or object of the payload |
| AutomationConditions.FlatteningIsInvisible | src/automation/automation-condition.evaluator.ts:102-115 | trees that reach no such condition evaluate alike on a payload and its flat form |
| AutomationConditions.PrimitivePayloadsAreFlat | src/automation/automation-condition.evaluator.ts:102-115 | on payloads of primitive values every tree is such a tree |
| AutomationConditions.MissingValueSeesFlattening | src/automation/automation-condition.evaluator.ts:56-59 | such a condition and payload exist |
| AutomationConditions.EngineMatchesIff | src/automation/automation-condition.evaluator.ts:16-30 | evaluateTriggers is true for some event type if and only if some trigger that matches the flat payload has no throwing one of its event type before it |
| AutomationConditions.DryRunPredictsEngineIff | src/automation/automation.service.ts:265-271 | for primitive payloads, or if no condition sees nesting, a dry run lists a trigger exactly when evaluateTriggers is true for some event type, if and only if it does not throw or exceptions cut off every match of the engine too |
| AutomationConditions.SingleConditionPredictedIff | src/automation/automation.service.ts:265-271 | for a rule with one simple condition, on any payload, the prediction is right if and only if the condition does not see nesting |
| AutomationConditions.MalformedConditionSpoilsDryRun | src/automation/automation.service.ts:267-271 | a rule whose dry run throws while the engine matches |
| Base32.IndexOfIsPosition | src/common/utils/totp.ts:3-14 | the arithmetic alphabet is the constant's: positions agree and all other characters are rejected |
| Base32.Base32Encode | src/common/utils/totp.ts:25-42 | the symbols spell the bits of the input filled up with zeros; there are ceil(8n/5) of them |
| Base32.OnlyLow12BitsReachOutput | src/common/utils/totp.ts:30-36 | only the low 12 bits of the overflowing accumulator ever reach a symbol of the encoder |
| Base32.OnlyLow12BitsReachBytes | src/common/utils/totp.ts:14-20 | nor do others reach a byte of the decoder |
| Base32.Base32Decode | src/common/utils/totp.ts:5-23 | fills exactly floor(5m/8) bytes, in bounds, none left unwritten, with the bits of the symbols; or reports the first character outside the alphabet |
| Base32.DecodingIsUnique | src/common/utils/totp.ts:5-23 | a text has one decoding |
| Base32.RoundTrip | src/common/utils/totp.ts:5-42 | decoding any case and padding variant of an encoding gives back the bytes |
| Base32.CaseAndPaddingDoNotMatter | src/common/utils/totp.ts:6 | an encoding in any mixture of cases, with any padding behind it, is decoded to its bytes |
| Base32.EncodeThenDecode | src/common/utils/totp.ts:5-42 | the two methods compose to the identity on all byte strings |
| Base32.EncodingIsInjective | src/common/utils/totp.ts:25-42 | encodings are equal if and only if the bytes are |
| Totp.WriteUInt32BE | src/common/utils/totp.ts:54-55 | writes four bytes that spell the number, most significant first; refuses exactly the numbers outside 32 bits |
| Totp.WordsAreMessage | src/common/utils/totp.ts:51-55 | the high and the low word together are the big-endian counter for every counter below 2^64 |
| Totp.BigEndianRoundTrip | src/common/utils/totp.ts:51-55 | that message spells the counter |
| Totp.TruncateReadsFourBytes | src/common/utils/totp.ts:58-63 | the code is the big-endian number in the four bytes at the offset without its sign bit |
| Totp.Rfc4226Example | src/common/utils/totp.ts:58-65 | the worked example in section 5.4 of RFC 4226 |
| Totp.TokenOf | src/common/utils/totp.ts:58-65 | dynamic truncation stays in bounds and the token is always six digits spelling the code modulo a million |
| Totp.GenerateTotpToken | src/common/utils/totp.ts:48-66 | the token RFC 6238 gives the key and the time step; an error exactly for a bad secret or a counter outside 64 bits |
| Totp.VerifyTotpToken | src/common/utils/totp.ts:68-81 | accepts a six-digit token if and only if it belongs to a counter within the window and below 2^64; all error cases, counters that leave 64 bits included |
| Totp.ClockSkew | src/common/utils/totp.ts:49-75 | readings at most 30w seconds apart lie in steps at most w apart |
| Totp.TokenSurvivesSkew | src/common/utils/totp.ts:48-81 | a generated token is accepted at every moment at most 30w seconds away |
| ScriptCache.StepKeepsDoc | src/script/hocuspocus.service.ts:80-158 | every step of a store, a flush or a failure keeps, for each document: loads return the last stored state, and differing copies are queued or in flight |
| ScriptCache.LoadsReturnLastStored | src/script/hocuspocus.service.ts:49-158 | the same in every reachable state under every interleaving of stores with a failing flush, harmless expiries and harmless restarts |
| ScriptCache.QuiescentMeansDurable | src/script/hocuspocus.service.ts:130-158 | when nothing is queued or in flight Postgres holds the last stored state of every document |
| ScriptCache.FlushDropsOnlyWrittenDocs | src/script/hocuspocus.service.ts:133-157 | a flush forgets a document only after writing it |
| ScriptCache.StoreFaultKeepsInvIff | src/script/hocuspocus.service.ts:86-95 | a store that Redis refuses is harmless if and only if it stored what was readable already |
| ScriptCache.ExpiryKeepsInvIff | src/script/hocuspocus.service.ts:88 | an expiry in Redis is harmless if and only if Postgres has caught up |
| ScriptCache.RestartKeepsInvIff | src/script/hocuspocus.service.ts:161-166 | a restart, which keeps Redis and forgets the queue, is harmless if and only if Postgres has what Redis has |
| ScriptCache.ShutdownIsDurable | src/script/hocuspocus.service.ts:161-166 | that is so when the last flush of a shutdown left nothing queued |
| ScriptCache.RefusedStoreIsLost | src/script/hocuspocus.service.ts:86-95 | a run after which refused content is in neither store although nothing is queued, against the log message |
| ScriptCache.HocuspocusService.OnLoadDocument | src/script/hocuspocus.service.ts:49-78 | Redis first, Postgres when Redis misses or fails |
| ScriptCache.HocuspocusService.OnStoreDocument | src/script/hocuspocus.service.ts:80-96 | is the write step followed by the mark step, Redis answering or not |
| ScriptCache.HocuspocusService.Batch | src/script/hocuspocus.service.ts:133 | lists each pending document once |
| ScriptCache.HocuspocusService.FlushDocument | src/script/hocuspocus.service.ts:136-157 | one round continues the run of the machine: it copies the document or queues it again |
| ScriptCache.HocuspocusService.FlushPendingToDB | src/script/hocuspocus.service.ts:130-159 | an uninterrupted flush is a run of the machine; exactly the documents that hit a fault stay pending and all others are copied |
| ObsConnections.BackoffSchedule | src/obs/obs-connection.manager.ts:204-206 | delays of 2, 4, 8, 16 seconds, then 30 for ever |
| ObsConnections.StepKeepsInv | src/obs/obs-connection.manager.ts:58-234 | every step, late failures and successes of replaced attempts included, keeps timers, handles, listeners and production lists consistent |
| ObsConnections.TimersBelongToStoredEntries | src/obs/obs-connection.manager.ts:178-216 | in every reachable state a live reconnect timer is held by the entry stored under its id, one at most for an id |
| ObsConnections.DisconnectLeavesNothing | src/obs/obs-connection.manager.ts:137-145 | after disconnectObs in any reachable state the production has no timer and no entry |
| ObsConnections.DisconnectSparesOthers | src/obs/obs-connection.manager.ts:137-145 | and entries, timers and lists of all other productions are as they were |
| ObsConnections.ConnectReplacesEntry | src/obs/obs-connection.manager.ts:65-88 | a connect that is not skipped leaves a new attempt with the given configuration, no timer of the old entry, all other entries as before, and the primary set when asked |
| ObsConnections.ConnectSkipsIff | src/obs/obs-connection.manager.ts:65-75 | a connect changes nothing if and only if the entry has the same configuration and is connected or waiting |
| ObsConnections.SuccessConnects | src/obs/obs-connection.manager.ts:104-110 | a successful attempt makes its instance connected, without failed attempts and without a timer; if it is stored, the same connect is then skipped |
| ObsConnections.LossDisconnects | src/obs/obs-connection.manager.ts:218-234 | a failed heartbeat ends the connection; a close ends it and makes the entry wait |
| ObsConnections.FirstFailureWaits | src/obs/obs-connection.manager.ts:98-125 | a first connect that fails waits for attempt 1 |
| ObsConnections.FailedCycleBacksOff | src/obs/obs-connection.manager.ts:188-216 | timer and failed attempt lead to waiting again, one step further in the schedule |
| ObsConnections.RetriesForever | src/obs/obs-connection.manager.ts:188-216 | after any number of failed rounds the entry still waits, with the delay of that round |
| ObsConnections.SuccessRestartsSchedule | src/obs/obs-connection.manager.ts:104-110 | a close after a successful connect waits two seconds again |
| ObsConnections.ManualReconnectRestartsSchedule | src/obs/obs-connection.manager.ts:147-156 | so does a failed manual reconnect |
| ObsManager.SuccessIsUp | src/obs/obs-connection.manager.ts:104-110 | after its attempt succeeded a stored entry is up and listed, so getInstance finds one |
| ObsManager.TearDownOneMore | src/obs/obs-connection.manager.ts:137-141 | tearing down a set of entries can be done one at a time in any order |
| ObsManager.ObsConnectionManager.TeardownInstance | src/obs/obs-connection.manager.ts:178-186 | refines the teardown step |
| ObsManager.ObsConnectionManager.AddToProduction | src/obs/obs-state.store.ts:31-36 | adds the id to the production's set |
| ObsManager.ObsConnectionManager.ConnectObsById | src/obs/obs-connection.manager.ts:58-99 | refines the connect step up to its await |
| ObsManager.ObsConnectionManager.ScheduleReconnect | src/obs/obs-connection.manager.ts:188-216 | refines the schedule step |
| ObsManager.ObsConnectionManager.OnConnected | src/obs/obs-connection.manager.ts:104-110 | refines the success step |
| ObsManager.ObsConnectionManager.OnTimer | src/obs/obs-connection.manager.ts:212-215 | refines the timer step |
| ObsManager.ObsConnectionManager.ManualReconnect | src/obs/obs-connection.manager.ts:147-156 | refines the manual step |
| ObsManager.ObsConnectionManager.DisconnectObs | src/obs/obs-connection.manager.ts:137-145 | the loop refines the one-step teardown of all entries of the production |
| ObsManager.ObsConnectionManager.GetInstance | src/obs/obs-state.store.ts:58-69 | a connected instance that serves the production, the primary if it is connected; None only if none is |
| VmixPolling.ConnectionEventsAlternate | src/vmix/vmix-connection.manager.ts:356-409 | connection events of one instance strictly alternate from connected on, and tell its state |
| VmixPolling.DisconnectIffOutage | src/vmix/vmix-connection.manager.ts:387-409 | a poll reports the disconnect if and only if the instance was connected and the maximal block of failures it ends counts three and spans five seconds |
| VmixPolling.OutageForcesDisconnect | src/vmix/vmix-connection.manager.ts:395-409 | such a block forces the disconnect, at its last poll at the latest |
| VmixPolling.ChangedIff | src/vmix/vmix-connection.manager.ts:329-335 | a sample is a change exactly if it differs from what is held or holds a number that is none |
| VmixPolling.ViewIsSample | src/vmix/vmix-connection.manager.ts:317-324 | after a success the instance holds the sample's values |
| VmixPolling.ReplayFollowsInstance | src/vmix/vmix-connection.manager.ts:310-354 | a consumer of change events alone always holds the instance's current values |
| VmixPolling.ApiUrlIsStable | src/vmix/vmix-connection.manager.ts:165-178 | every address comes to start with "http" and to end in "/api", and a normalised one stays as it is |
| VmixPolling.ApiUrlOfPlain | src/vmix/vmix-connection.manager.ts:165-178 | an address with nothing to trim or strip gets "http://" unless it starts with "http", and "/api" unless it ends so or is "api" |
| VmixPolling.ApiUrlIgnoresDressing | src/vmix/vmix-connection.manager.ts:165-178 | spaces around an address and slashes behind it do not change its URL |
| VmixPolling.ApiUrlOfHost | src/vmix/vmix-connection.manager.ts:165-178 | an IP address and port between blanks, with a slash behind, becomes "http://", the address, and "/api" |
| VmixPolling.ApiUrlHasSchemeIff | src/vmix/vmix-connection.manager.ts:165-178 | the result has a real scheme if and only if the trimmed address names something after its scheme, or something that does not begin with "http" |
| VmixPolling.VmixInstance.PollApi | src/vmix/vmix-connection.manager.ts:183-424 | a poll refines the poll step and emits its events; skipped while one is in flight |
| VmixPolling.VmixInstance.OnSample | src/vmix/vmix-connection.manager.ts:310-368 | the success path refines the poll step |
| VmixPolling.VmixInstance.OnFailure | src/vmix/vmix-connection.manager.ts:387-409 | the failure path refines the poll step |
| VmixManager.StepKeepsInv | src/vmix/vmix-connection.manager.ts:97-189 | connects, stops, ticks and answers keep: intervals are those of connected instances, one request under way at most, each instance the product of its polls |
| VmixManager.InstancesLiveThroughTheirPolls | src/vmix/vmix-connection.manager.ts:97-189 | the same in every reachable state, late answers of replaced instances included |
| VmixManager.FeedOfInstanceIsSound | src/vmix/vmix-connection.manager.ts:183-424 | so alternation and replay hold for each instance in every interleaving |
| VmixManager.ConnectIsIdempotent | src/vmix/vmix-connection.manager.ts:97-144 | connecting leaves a running interval for the address; the same address again changes nothing |
| VmixManager.AnswerStaysTruthfulIff | src/vmix/vmix-connection.manager.ts:356-408 | after an answer every production is still told its connection state if and only if no stopped or replaced instance reported another one |
| VmixManager.AnswerStaysAccurateIff | src/vmix/vmix-connection.manager.ts:329-354 | the same for the values of the change events |
| VmixManager.OtherCallsAreTrue | src/vmix/vmix-connection.manager.ts:97-160 | connects, stops and ticks never make what a production was told untrue |
| VmixManager.ProductionsAreToldTheTruthIff | src/vmix/vmix-connection.manager.ts:97-424 | throughout a run productions are told their connection state, or their values, if and only if no such answer comes |
| VmixManager.LateAnswerRevives | src/vmix/vmix-connection.manager.ts:146-160 | after a stop such an answer exists |
| VmixManager.ReplacedAnswerRevives | src/vmix/vmix-connection.manager.ts:97-108 | and after a change of address |
| VmixManager.VmixConnectionManager.ConnectVmix | src/vmix/vmix-connection.manager.ts:97-144 | refines the connect step |
| VmixManager.VmixConnectionManager.DisconnectVmix | src/vmix/vmix-connection.manager.ts:146-153 | refines the disconnect step |
| VmixManager.VmixConnectionManager.PollApi | src/vmix/vmix-connection.manager.ts:183-194 | refines the tick step: a request goes out unless one is under way |
| VmixManager.VmixConnectionManager.StopPolling | src/vmix/vmix-connection.manager.ts:155-160 | refines the stop step |
| AuthSessions.StepKeeps | src/auth/auth.service.ts:186-228 | every call keeps tokens unique, owners and expiries fixed, and revoked rows revoked |
| AuthSessions.RevocationIsPermanent | src/auth/auth.service.ts:186-228 | the same over every run |
| AuthSessions.RefreshAcceptedIff | src/auth/auth.service.ts:186-219 | a refresh succeeds if and only if a row has the token, is unrevoked and not expired, and the drawn identifiers are new |
| AuthSessions.RefreshConserves | src/auth/auth.service.ts:211-219 | an accepted refresh swaps the consumed session for one usable for a week: the user keeps as many live sessions, other users keep theirs |
| AuthSessions.ReuseRevokesEverything | src/auth/auth.service.ts:195-209 | an unexpired revoked token leaves its user without live sessions and touches nobody else |
| AuthSessions.EndingCallsLeave | src/auth/sessions.service.ts:23-46 | logout and both revocations end exactly the sessions they name |
| AuthSessions.AcceptedAtMostOnce | src/auth/auth.service.ts:186-220 | over every run each refresh token is accepted once at most |
| AuthSessions.LiveSessionsBoundedByLogins | src/auth/auth.service.ts:186-228 | over every run a user's live sessions grow by the user's logins only |
| AuthSessions.ReuseEndsTheFamily | src/auth/auth.service.ts:195-209 | after a detected reuse no session of the user, descendants included, is refreshed until the user logs in again |
| AuthSessions.AuthService.GenerateTokens | src/auth/token.service.ts:14-32 | refines the issue step |
| AuthSessions.AuthService.Refresh | src/auth/auth.service.ts:186-220 | refines the refresh step |
| AuthSessions.AuthService.Logout | src/auth/auth.service.ts:222-228 | refines the logout step |
| AuthSessions.AuthService.RevokeSession | src/auth/sessions.service.ts:23-34 | refines the revocation of one session |
| AuthSessions.AuthService.RevokeAllSessions | src/auth/sessions.service.ts:36-46 | refines the revocation of all sessions but one |
| LoginLockout.LockFollowsCounter | src/auth/auth.service.ts:130-161 | over every run a lock is set exactly while the counter stands at five or more |
| LoginLockout.LoginSucceedsIff | src/auth/auth.service.ts:119-183 | a login is answered with tokens, or with the second factor, if and only if the user exists undeleted, no lock is running, the password matches, the address is verified and 2FA is off, or on |
| LoginLockout.LoginRefusedIff | src/auth/auth.service.ts:119-156 | exactly which logins are refused as locked, unverified, too many or invalid, which are counted, and that the others change nothing |
| LoginLockout.ReliefClears | src/auth/password.service.ts:64-67 | a reset, like a success, clears counter and lock and nothing else |
| LoginLockout.RunKeepsSpacing | src/auth/auth.service.ts:123-141 | from the limit on, each counted wrong password is a lockout after the one before |
| LoginLockout.WrongPasswordsAreSlowedDown | src/auth/auth.service.ts:123-161 | without success or reset the k-th counted wrong password, k at least five, comes 15(k-5) minutes after the fifth or later |
| LoginLockout.GuessesInWindow | src/auth/auth.service.ts:123-161 | wherever the counter stood, beyond the limit a time window admits one guess for each lockout period at most |
| LoginLockout.ResetRestoresAccess | src/auth/password.service.ts:58-67 | after a reset the right password of a verified user is good at once, whatever came before |
| LoginLockout.OthersUntouched | src/auth/auth.service.ts:138-161 | calls about one user leave all others alone |
| LoginLockout.AuthService.Login | src/auth/auth.service.ts:111-184 | refines the login step and its outcome |
| LoginLockout.AuthService.ResetPassword | src/auth/password.service.ts:58-67 | refines the reset step |
| Timeline.StepKeepsInv | src/timeline/timeline.service.ts:45-213 | every call keeps: at most one ACTIVE block in a production, status determined by the timestamps, start before end |
| Timeline.RunKeepsInv | src/timeline/timeline.service.ts:45-213 | the same over every run with a clock that does not go back |
| Timeline.StartHandsOver | src/timeline/timeline.service.ts:101-124 | a start closes what was active in the production no later than the new start and changes nothing else |
| Timeline.ReorderSetsPositions | src/timeline/timeline.service.ts:85-95 | a listed block gets the last position it is listed at |
| Timeline.ReorderKeepsRest | src/timeline/timeline.service.ts:85-95 | reordering changes the order column of listed blocks and nothing else |
| Timeline.ResetUndoesLifeCycle | src/timeline/timeline.service.ts:101-201 | after any starts, completions and resets a reset gives the block as it was created, its details untouched |
| Timeline.CallsTakeEffect | src/timeline/timeline.service.ts:45-201 | what each successful call makes of its block, and that it leaves all others alone unless it starts one |
| Timeline.RefusedIff | src/timeline/timeline.service.ts:45-201 | exactly which calls are refused |
| Timeline.RefusedCallsChangeNothing | src/timeline/timeline.service.ts:56-213 | a call that throws leaves the table as it was, half-done reorders included |
| Timeline.ProductionIsolationIff | src/timeline/timeline.service.ts:85-95 | a successful call leaves other productions' blocks alone if and only if it is not a reorder listing one of them at a new position |
| Timeline.OverlapArisesIff | src/timeline/timeline.service.ts:162-174 | times on air of a production start to overlap if and only if a block is completed again after another one went on air |
| Timeline.NoOverlapOverRuns | src/timeline/timeline.service.ts:101-174 | over every run without such a call they never overlap |
| Timeline.CompletingTwiceOverlaps | src/timeline/timeline.service.ts:162-174 | a table and a call that make them overlap |
| Timeline.TimelineService.CreateBlock | src/timeline/timeline.service.ts:45-54 | refines the create step |
| Timeline.TimelineService.UpdateBlock | src/timeline/timeline.service.ts:56-72 | refines the update step |
| Timeline.TimelineService.DeleteBlock | src/timeline/timeline.service.ts:74-83 | refines the delete step |
| Timeline.TimelineService.ReorderBlocks | src/timeline/timeline.service.ts:85-97 | the loop of updates in one transaction refines the reorder step |
| Timeline.TimelineService.StartBlock | src/timeline/timeline.service.ts:101-124 | refines the start step |
| Timeline.TimelineService.CompleteBlock | src/timeline/timeline.service.ts:162-174 | refines the complete step |
| Timeline.TimelineService.ResetBlock | src/timeline/timeline.service.ts:188-201 | refines the reset step |
| CloudEgress.RecordLostIff | src/streaming/streaming.service.ts:83-189 | with all live egresses recorded, exactly the listed outcomes inside a call leave one that is not |
| CloudEgress.LiveEgressIsRecorded | src/streaming/streaming.service.ts:83-189 | over every run, whatever room creation and database do, while stops of live egresses work every live egress is the recorded one |
| CloudEgress.AtMostOneLive | src/streaming/streaming.service.ts:97-99 | then a production has one live egress at most, and no second start gets through |
| CloudEgress.OrphanRunsUntilItEnds | src/streaming/streaming.service.ts:167-188 | a lost egress is never reached by any later call |
| CloudEgress.SucceedsIff | src/streaming/streaming.service.ts:83-189 | exactly which starts and stops succeed, and which stop with a warning |
| CloudEgress.RefusedIff | src/streaming/streaming.service.ts:93-165 | exactly which calls their checks refuse |
| CloudEgress.OthersUntouched | src/streaming/streaming.service.ts:125-183 | a call touches the row of its own production only |
| CloudEgress.RepliesAreTrue | src/streaming/streaming.service.ts:83-189 | a reported start is running and recorded, a reported stop is neither, and refused calls change nothing |
| CloudEgress.StreamingService.StartCloudStream | src/streaming/streaming.service.ts:83-152 | refines the start step at every failure point, rollback included |
| CloudEgress.StreamingService.StopCloudStream | src/streaming/streaming.service.ts:154-189 | refines the stop step, the reset in the catch block included |

## Left out

- AutomationEngine.AtMostOneSuccess: speaks of runs without a duplicate launch; the code does not rule them out, and AutomationRuns.StaleLookupLaunchesTwice shows that the statement fails with one.
- AutomationEngine.StepKeepsRows: a run whose log writes fail may have no row, or an ERROR row although its actions succeeded; the exact count is stated for runs without such faults.
- AutomationPoller.AutomationEngineService.ExecuteActions: one run on its own; interleaved runs are the step machine of AutomationEngine. Waiting times of delays are not modelled, only the order they enforce.
- AutomationConditions.ModernizePreserves: JSON values have own properties only (no inherited names such as toString), and numbers are exact and not NaN.
- Base32.Base32Decode: toUpperCase on ASCII letters only; other letters that upper-case into the alphabet are rejected in the model.
- Totp.VerifyTotpToken: the token is a string of bytes, so its length is that of its UTF-8 form; HMAC-SHA1 is any function to 20 bytes.
- Compositor.CustomGraphPaintsLayout: coordinates are exact reals rounded half up, where the code uses floats; sources are opaque pictures, and sizes of zero or below, which FFmpeg treats specially, count as not drawable.
- LayoutPresets.DefaultHubAccepted: every input is taken to have an audio track; a size of zero, which FFmpeg reads as the input's own size, counts as refused; the preset `full` takes the branch without a filter graph (srs.service.ts:93), where the theorem only says that its command needs no graph. Encoder options, the tee output and process handling of startHub and stopHub are not modelled.
- Presence.PresenceService.GetProductionForSocket: which of several productions of a socket is found depends on Map insertion order; any of them is allowed here.
- Presence.StepKeepsInv: assumes what the gateway ensures, that a socket keeps its user; broadcasting, the inactivity scan and the members' order are left out.
- ScriptCache.LoadsReturnLastStored: Redis is configured, accepts stores and does not drop a document that Postgres lags behind on, and the service does not restart then; flushes do not overlap. StoreFaultKeepsInvIff, ExpiryKeepsInvIff and RestartKeepsInvIff tell what happens otherwise. Merging of edits and the listening socket are left out.
- ObsConnections.StepKeepsInv: a connection id stays with one production. Statistics, heartbeat and screenshot intervals, events and initial state are left out, since they can outlive their entry. Instances live in a map that plays the heap.
- VmixPolling.DisconnectIffOutage: about one instance; VmixManager adds replacement and stopping. Fetching and parsing XML ends in a sample or a failure, event listeners do not throw, and what the feed carries beyond the five compared values is left out.
- VmixManager.VmixConnectionManager.ConnectVmix: the polling period and its lower limit are left out.
- AuthSessions.AcceptedAtMostOnce: a service call is one step, so two concurrent uses of one token are taken one after the other. Expiry is seven days of 24 hours; access tokens, 2FA and OAuth only end in an issue step.
- LoginLockout.WrongPasswordsAreSlowedDown: a login is one step and clock readings do not go back. Lower-casing of addresses, the minutes in the message and the audit log are left out; bcrypt's answer is a parameter.
- Timeline.RunKeepsInv: a call is one step; titles stand for all descriptive columns. Events, the debounced broadcast and the audit log (which swallows its errors) are left out.
- CloudEgress.LiveEgressIsRecorded: a call is one step, so two concurrent starts are taken one after the other; LiveKit gives out each egress id once. Recording and the per-destination engines are left out.
- Production status transitions, overlays, guests, chat, polls, pagination, uploads, mail and push: plumbing, easy, or written by several endpoints without a common rule.
- Permission guards, controllers, DTO validation and gateways: reading the branches settles them.
