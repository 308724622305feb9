# HDV foundation kernel: a verified model

This project models the transport kernel of the `hdv-foundation` package in Dafny and proves what it keeps over whole
runs: KNOLL, the gate every packet passes; APEX, the re-entrant router behind it; the two hash-chained audit logs; the
billing ledger, the meter and the tenants' allowances; the rate limiters and scorers; and five algorithmic cores around
them (outcome trees and Pareto selection, sovereign succession, the eval board, vector recall, the camera schedule).

Run `dafny verify dfyconfig.toml` to check it.

## How to read it

Each imperative part is a class whose methods have the source's loops and early returns, and each such method is proved
equal to a function on values (`Knoll.Intercept` against `Gate`, `ApexRouter.Dispatch` against `Routed`,
`AllowanceAccount.Consume` against `Consumed`, and so on). The theorems are about those functions, over runs of any
length and call trees of any depth, so they hold of the methods. What such a function comes to is said a second time in
other terms: by counting in the history, by following paths into a value, by an interval around an exact number, by
reading a text back.

| files | what they hold |
|---|---|
| `Text`, `Utf16`, `Money`, `Order`, `Json`, `JsonText`, `Schema` | text, money and sorting primitives; JSON values, their text and a reader of it; packets, laws, verdicts |
| `PacketHash`, `HashChain`, `AuditChain`, `DesignatedLedger`, `CanonicalTexts` | what a canonical text pins down and says, and the two append-only chains |
| `FixedWindow`, `RateLimiter`, `RateHistory`, `Laws`, `PayloadText`, `Freeze`, `Knoll`, `KnollRuns`, `KnollDecisions` | the gate, its parts and its runs |
| `Scoring`, `Learned`, `ScoreRuns`, `Training`, `Shuffles` | the two scorers and what training does |
| `Ledger`, `Pricing`, `Allowance`, `Meter`, `Charges` | money |
| `Router`, `RouterRuns`, `RouterSafety`, `Delivery`, `Orchestrator` | dispatch, call trees, freeze safety, who is delivered, the composition root |
| `Dream`, `DreamScores`, `Sovereign`, `Readers`, `EvalBoard`, `BoardMeasures`, `Recall`, `RecallMeasures`, `ActionString` | the other algorithmic cores |

Conventions, stated once:

- Floats are real numbers; `round3`, `round4` and `round6` round half up, without the `Number.EPSILON` term. Money is in
  micro-USD, so a six-place amount is a whole number. Timestamps are whole numbers.
- SHA-256, `Math.sqrt`, `exp` and `log`, the malicious-text patterns, the entropy feature, the token recogniser, random
  ids, the seeded random source and the wording of messages are parameters. Where something is needed of one of them (no
  collisions among the texts hashed, 64-character digests, a square root that squares back) the lemma says so.
- Each reading of a clock is a parameter of the call that takes it; one interception takes up to six, its `Readings`. Runs
  that need it assume a clock that never goes back.
- A handler is the finite script of what it does: dispatches (each with the script of the handler it reaches), freeze
  orders, registrations, and an answer or an error. After a dispatch it goes on in one of two ways, as the reply is one
  watched for or any other. So any terminating run of any handlers is a run of some script, and so are any two runs of
  the same handlers in two routers, which is what the theorem about two routers needs. Handlers are taken to read a
  reply's status, response and error, not the wording or the constraint list of its verdict.
- A thrown error is a result value: `None`, or a named case.
- The heuristic score is kept as it is compared; its rounding to four places (`knoll/scoring.ts:131`) is where KNOLL
  reports it.
- `Kept(x, exact, unit)` says that `x` is `exact` rounded half up to a multiple of `unit`, by the interval that leaves.

## What turned out to need a condition

- The hard cap is tested with a tolerance of 1e-9 USD, so spend can pass the larger of its start and the cap, by less
  than the next whole micro-USD. `CapExactness` says exactly when, for all runs; caps that are whole micro-USD are safe.
- `includedRemaining + spent = included + overage` fails exactly for an account that is over an allowance lying half way
  between two micro-USD (`BalanceAddsUp`; `BalanceOffByOne` is such an account).
- The ledger's total is what the account charged or rejected, plus the ledger cost of what was billed by footprint,
  exactly when nothing billed at its own cost was given a cost that rounds below zero: the ledger keeps it, the allowance
  reads it as nothing (`FallbackConserves`, `MeterMatchesLedger`; `NegativeCostLeaks` is such a dispatch).
- Training on a denial can make the learned scorer more lenient towards that packet: regularisation shrinks weights
  even where there is no error left (`DenialCanLower`, with the shipped rates). `StepLeansIff` says exactly when one step
  does, and `TrainingLeans` how far whole trainings can; from a cold start they never do.
- The eval board's rates are rounded to six places: it agrees with the ground truth for every board of up to two million
  cases, and `GateIsExactIff` says exactly when it does for longer ones.
- The most hits of one key a limiter admits in a window-long interval is `2 * limit - 1` for windows of 2 ms or more and
  `limit` for a window of 1 ms, and each is reached (`SlidingBound`, `SlidingBoundReached`).
- The malicious-intent law looks at one joined text, so a match can reach across the separator between two harmless
  parts. It refuses exactly the packets that say something malicious when no match does (`SeenIffSaid`); it refuses
  those in any case (`SaidIsSeen`, `HarmlessIff`).
- An included amount set on an account changes its balance but not when the overage rate starts: that is the tier's own
  allowance (`billing/pricing.ts:173`, `IncludedMovesNothing`).
- A forwarded packet does not carry the tenant of the packet it answers (`apex/orchestrator.ts:127-133`); the model keeps
  this.

## Model

| member | source | states |
|---|---|---|
| RouterRuns.LedgerIsPostOrder | hdv-foundation/apex/router.ts:98-241 | Over every run, nested to any depth, the ledger (and what the observer saw) grows by exactly one row per call, in the post-order of the call tree |
| RouterRuns.TraceIsCallTree | hdv-foundation/apex/router.ts:133-241 | The call tree of a run has one node per send made, with the sends of its handler below it, and only below delivered calls; a delivered call gets exactly what its handler ends with, and what follows a call follows its reply |
| RouterRuns.KnollRunsInPreOrder | hdv-foundation/apex/router.ts:158-189 | KNOLL is driven one call at a time in the pre-order of the call tree: each call begins with the state all earlier calls, however nested, left behind |
| RouterRuns.AuditIsPreOrder | hdv-foundation/apex/router.ts:133-193 | Over every run the security audit grows by exactly one entry per call that reached KNOLL, in pre-order, each saying what that caller was told |
| RouterDelivery.DeliveryIsExact | hdv-foundation/apex/router.ts:98-241 | Over every run, nested to any depth: a call is delivered if and only if KNOLL, in the state earlier items left, is asked and allows it, and its destination had a handler from the start or was registered earlier at any depth; an allowed packet nobody is registered for fails by that name; what is not delivered nests nothing and costs nothing; each call has its own row and observation, field by field, at its place in the post-order |
| RouterDelivery.EveryRowIsACall | hdv-foundation/apex/router.ts:98-241 | Every row a run adds is that of some call of the run |
| Router.ApexRouter.Dispatch | hdv-foundation/apex/router.ts:98-241 | One dispatch: structure, freeze, gate, handler lookup, delivery, then always one row and one observation; state and result are those of `Routed` |
| Router.ApexRouter.Play | hdv-foundation/apex/router.ts:211-241 | A handler that dispatches again, to any depth, and reacts to the replies it gets leaves the router as `Performed` says, with its answer or its error |
| RouterSafety.FreezeIsHistory | hdv-foundation/knoll/freeze.ts:109-168 | At every point of a run the freeze flag and its cause are determined by the calls and overrides before it |
| RouterSafety.FreezeStands | hdv-foundation/knoll/freeze.ts:109-123 | A freeze keeps its first cause until an override lifts it |
| RouterSafety.FreezeSafety | hdv-foundation/apex/router.ts:158-178 | A call that begins while frozen with no accepted token is blocked at no cost and leaves KNOLL, its audit included, exactly as it was |
| RouterSafety.DeliveredMeansAdmitted | hdv-foundation/apex/router.ts:158-178 | Whatever reaches a handler began before the freeze or brought its own accepted token |
| RouterSafety.FrozenRunIsInert | hdv-foundation/apex/router.ts:133-241 | A run that starts frozen and brings no override refuses every call, costs nothing and leaves KNOLL unchanged |
| RouterSafety.TokenAdmitsOneOnly | hdv-foundation/apex/router.ts:158-178 | An accepted token admits one packet: unless its handler brings an override of its own, everything that handler sends on, to any depth, is refused, and the freeze keeps its cause |
| RouterSafety.QuietBringsNothing | hdv-foundation/apex/router.ts:158-178 | While frozen, a script whose own sends carry no accepted token and whose orders lift nothing brings no override at any depth, whatever the handlers it names would do |
| RouterSafety.DeliveredIsLawful | hdv-foundation/apex/router.ts:177-213 | At any depth, what reaches a handler is untampered, well tokened and on an open route; DREAM and VISION only ever get packets from APEX |
| RouterSafety.DeliveredSaysNoMalice | hdv-foundation/apex/router.ts:177-213 | At any depth, nothing that reaches a handler has a malicious intent or a malicious string at any depth of its data |
| RouterSafety.OnlySuccessCosts | hdv-foundation/apex/ledger.ts:58-90 | Over every run only SUCCESS rows carry cost, so the total equals the SUCCESS total |
| RouterSafety.MeterMatchesLedger | hdv-foundation/billing/meter.ts:111-151 | With the meter as observer, from any state: metered + skipped grow by the new rows, metered by the new SUCCESS rows, spend by what is attributed; on a tier the platform bills the ledger total grows by own-cost charges and rejections plus the ledger cost of what is billed by footprint, if and only if nothing billed at its own cost has a negative one; with no ephemeral success that is attributed + rejected cost |
| RouterSafety.ShadowIsInvisible | hdv-foundation/knoll/scoring_learned.ts:271-275 | With the learned scorer in shadow mode, every run of handlers that react to status, response and error makes the same sends, with the same replies, costs and rows, as without it |
| KnollGate.Knoll.Intercept | hdv-foundation/knoll/validator.ts:109-198 | The gate's verdict and its whole new state (buckets, scorers, freeze, quarantine, audit) are those of `Gate`, for any readings of the clocks of its parts |
| KnollGate.Knoll.CheckRate | hdv-foundation/knoll/validator.ts:229-245 | The rate check answers and advances only the source's bucket |
| KnollRuns.GateAudits | hdv-foundation/knoll/validator.ts:109-198 | Every interception writes exactly one audit entry, with the outcome the caller is told, and cannot replace or lift a standing freeze |
| KnollRuns.RefusalFootprint | hdv-foundation/knoll/validator.ts:109-198 | In every state each answer leaves exactly its own footprint: structure and hash only the audit; rate and laws also the source's bucket; a behavioural refusal the source's bucket and scorer memory, that packet in quarantine after those before it, and the freeze it causes; a learned one and an admission both scorers' memory of the source; the system freezes on a behavioural refusal and on no other answer |
| KnollRuns.AllowedMeans | hdv-foundation/knoll/validator.ts:109-198 | An allowed packet is untampered, on an open route, well tokened, free of malicious text, inside its tenant and within its destination's duty |
| KnollRuns.AllowedSaysNoMalice | hdv-foundation/knoll/laws.ts:137-151 | For patterns that a match satisfies whatever stands around it, an allowed packet has no malicious intent and no malicious string at the end of any path into its data |
| KnollDecisions.GateDecides | hdv-foundation/knoll/validator.ts:109-198 | KNOLL allows a packet if and only if nothing of hash, rate, laws, heuristic and learned scorer stands in its way, and otherwise names the first that does; an allowed one gets the eight laws and the scorers that were asked; each scorer moves exactly when it is asked |
| KnollDecisions.KnollDecidesExactly | hdv-foundation/knoll/validator.ts:109-198 | The same over every run with fresh scorers, the scores worked out from the packets before |
| KnollRuns.TamperIsCaught | hdv-foundation/knoll/validator.ts:120-126 | Changing sealed content after hashing is refused on the hash in every state, and reordering keys never is (if and only if, for non-colliding texts) |
| KnollRuns.LearnedIsAdditive | hdv-foundation/knoll/validator.ts:109-198 | Two runs of the same packets, with and without the learned scorer: the rest of the state stays equal, nothing is newly allowed, the only new denial is the learned one, and in shadow mode the answers are identical |
| KnollRuns.KnollSlidingBound | hdv-foundation/knoll/validator.ts:229-245 | Any half-open interval one rate window long sees at most 2 max(1, rateLimit) - 1 packets of a source past the rate check (max(1, rateLimit) for a window of 1 ms), and KNOLL allows no more than those |
| RateHistory.NothingRefusedEarly | hdv-foundation/knoll/validator.ts:229-245 | The rate check refuses no packet whose source has had fewer than the limit checked within the window before it, refused ones included |
| Laws.FirstBroken | hdv-foundation/knoll/laws.ts:58-242 | The loop over the eight laws returns the first one broken, in order; what each comes to is `HarmlessIff` |
| Laws.LawfulIff | hdv-foundation/knoll/laws.ts:58-242 | No law is broken if and only if the packet is well tokened, on one of the twelve open routes, free of malicious text, inside its tenant and within its destination's duty |
| PayloadText.CollectedByPath | hdv-foundation/knoll/laws.ts:222-230 | The strings collected from a value are exactly those some path of indices and keys leads to, once for each path, in enumeration order |
| PayloadText.SaidIsSeen | hdv-foundation/knoll/laws.ts:138-138 | The intent and every string at any depth stand unbroken in the text the patterns look at |
| PayloadText.SeenIffSaid | hdv-foundation/knoll/laws.ts:137-151 | When no match reaches across a separator, the law refuses exactly the packets whose intent, or some string at some depth, matches |
| PayloadText.HarmlessIff | hdv-foundation/knoll/laws.ts:58-242 | No law is broken if and only if token, route, tenant and duty are right and nothing the packet says is malicious |
| Laws.TokenTells | hdv-foundation/config/hash.ts:72-74 | A well-formed token is `knoll_` and 32 digits of `0123456789abcdef` |
| Laws.DutyIsItsOwners | hdv-foundation/config/duty.ts:73-95 | A packet keeps to duty if and only if its destination is outside the triad or owns the duty that the first of `duty`, `requestedDuty` and `kind` to name one asks for |
| Laws.TriadTrafficFlowsUp | hdv-foundation/config/duty.ts:30-66 | Inside the triad the only open routes lead to HOPE, from DREAM or VISION |
| Freeze.SystemFreezeController.TriggerFreeze | hdv-foundation/knoll/freeze.ts:109-123 | The first cause is recorded and later triggers change nothing |
| Freeze.SystemFreezeController.Unfreeze | hdv-foundation/knoll/freeze.ts:150-168 | Only an accepted token lifts a freeze; quarantine is untouched |
| Freeze.SystemFreezeController.QuarantinePacket | hdv-foundation/knoll/freeze.ts:125-136 | Quarantine appends one record and leaves the freeze alone |
| Scoring.BehavioralScorer.Score | hdv-foundation/knoll/scoring.ts:95-138 | The weighted, clamped score, the verdict and the new window and reputation of the source, and of no other source |
| Scoring.ReputationMonotone | hdv-foundation/knoll/scoring.ts:95-165 | Over every run, a scorer that starts with worse reputations keeps them, and denies whatever the cleaner one denies |
| Scoring.WindowIsRecentHistory | hdv-foundation/knoll/scoring.ts:149-157 | The pruned window always equals the recent part of the full timestamp history |
| ScoreRuns.ScoreIsExact | hdv-foundation/knoll/scoring.ts:95-165 | Over every run of a fresh scorer, each score is the clamped sum of seven weighted features: the share of the soft cap that the packets of its source in the window take up, its own five, and the risk its source's earlier packets left; denied if and only if it reaches the threshold |
| ScoreRuns.LearnedIsExact | hdv-foundation/knoll/scoring_learned.ts:222-275 | The same of the learned scorer: the rounded sigmoid of bias and weighted sum; it adds a deny if and only if it enforces and the probability reaches the threshold |
| ScoreRuns.ScoreRises | hdv-foundation/knoll/scoring.ts:108-118 | With weights that are not negative and a grade that rises, a packet that is nowhere less suspicious never scores less in its place |
| Learned.LearnedBehavioralScorer.Verdict | hdv-foundation/knoll/scoring_learned.ts:222-275 | A deny is an anomaly in enforce mode and nothing else; window and reputation move as the verdict says |
| Learned.LearnedBehavioralScorer.Train | hdv-foundation/knoll/scoring_learned.ts:180-210 | Training leaves the model of the epochs' gradient steps, taken in each epoch's order, and returns the last epoch's mean loss |
| Learned.Permute | hdv-foundation/knoll/scoring_learned.ts:351-366 | The in-place shuffle over a copy is the Fisher-Yates shuffle of the draws |
| Training.EpochTakesEverySample | hdv-foundation/knoll/scoring_learned.ts:196-210 | Every epoch trains on every sample exactly as often as it was given, whatever the seed |
| Shuffles.EveryOrderComesOut | hdv-foundation/knoll/scoring_learned.ts:351-366 | Every order of the samples is the order of some epoch, for some draws |
| Training.MeanLossIsBetween | hdv-foundation/knoll/scoring_learned.ts:196-210 | What training returns, before rounding, lies between the least and greatest loss of the last epoch, each taken before its own step |
| Training.StepMovesLogit | hdv-foundation/knoll/scoring_learned.ts:180-191 | What one step does to any packet's logit, exactly: minus rate times (error times (feature overlap + 1) plus regularisation times its weighted sum) |
| Training.StepLeansIff | hdv-foundation/knoll/scoring_learned.ts:180-191 | One step does not lower a packet's logit if and only if error times (overlap + 1) plus the regularisation's pull is not positive, and does not raise it if and only if it is not negative |
| Training.DenialCanLower | hdv-foundation/knoll/scoring_learned.ts:144-146 | With the default rates, a model and a denial of a packet after which that packet's own logit is lower |
| Training.TrainingLeans | hdv-foundation/knoll/scoring_learned.ts:180-210 | Trained on denials alone, over any samples, shuffles and epochs and from any model, a packet's logit never ends below the old bias plus what regularisation leaves of the old weights; on admissions alone, never above |
| Training.TrainingNeverBackfires | hdv-foundation/knoll/scoring_learned.ts:180-210 | So no probability ends on the wrong side of where it started when the model had no weight on the packet to lose, or without regularisation |
| Training.ColdStartNeverBackfires | hdv-foundation/knoll/scoring_learned.ts:114-154 | From the cold start of zero weights, training on denials alone lowers no probability and training on admissions alone raises none |
| Json.StringifyUnique | hdv-foundation/config/hash.ts:17-54 | JSON text is self-delimiting: a value's text followed by anything reads back in one way only |
| Json.StringifyInjective | hdv-foundation/config/hash.ts:17-54 | Values with the same JSON text are the same value |
| Json.SortDecides | hdv-foundation/config/hash.ts:39-54 | Key-sorted forms are equal if and only if the values are equal up to object key order at every depth |
| Json.SortIdempotent | hdv-foundation/config/hash.ts:39-54 | Sorting keys twice is sorting them once |
| Json.SortValueLoop | hdv-foundation/config/hash.ts:39-54 | The loop that fills a new object in key order builds the sorted form |
| JsonText.ValueReadBack | hdv-foundation/config/hash.ts:17-37 | A JSON reader written apart reads every value back from its text, and leaves what follows |
| Utf16.StrLessIsUnitOrder | hdv-foundation/config/hash.ts:45-47 | Keys are sorted exactly as their UTF-16 code units compare |
| PacketHash.CanonicalDecides | hdv-foundation/config/hash.ts:17-59 | Two packets have the same canonical text if and only if headers (presence of the tenant included) and intents are equal and data is equal up to key order |
| CanonicalTexts.PacketTextTells | hdv-foundation/config/hash.ts:17-37 | The hashed text reads back as an object of header and payload: the header's fields in order, the tenant only when there is one, intent and key-sorted data |
| CanonicalTexts.EntryTextTells | hdv-foundation/knoll/hashchain.ts:47-55 | An audit entry's text reads back as its five fields in order, a missing reason as null |
| CanonicalTexts.RecordTextTells | hdv-foundation/holloway/designated_ledger.ts:95-104 | A sovereign record's text reads back as its six fields in order |
| HashChain.VerifyLinks | hdv-foundation/knoll/hashchain.ts:157-176 | The loop accepts exactly the sequences whose every link holds, and otherwise reports the first that does not |
| HashChain.AcceptedIffSealed | hdv-foundation/knoll/hashchain.ts:78-176 | Verification accepts a sequence of links if and only if appending its entries would build it |
| HashChain.SealedLinkTells | hdv-foundation/knoll/hashchain.ts:43-87 | Each link of a sealed history holds its position, entry, entry hash, the hash before it or 64 zeros, and the hash of these |
| HashChain.LinkTextUnique | hdv-foundation/knoll/hashchain.ts:63-65 | `index\|prevHash\|entryHash` reads back in one way only |
| HashChain.HeadPinsHistory | hdv-foundation/knoll/hashchain.ts:47-65 | Accepted chains with equal heads have equal length and canonically equal entries throughout, if their texts do not collide |
| HashChain.HashAgreesIffPrefixAgrees | hdv-foundation/knoll/hashchain.ts:128-153 | A re-sealed snapshot agrees with the chain at a position if and only if it agrees with the history up to there |
| AuditChain.AuditHashChain.Append | hdv-foundation/knoll/hashchain.ts:78-87 | One more entry is sealed on top of the history, and the old links stay |
| AuditChain.AuditHashChain.Rebuild | hdv-foundation/knoll/hashchain.ts:89-99 | The chain becomes the seal of the given entries |
| AuditChain.AuditHashChain.Verify | hdv-foundation/knoll/hashchain.ts:119-121 | Every chain built by append and rebuild verifies |
| AuditChain.AuditHashChain.DetectTamper | hdv-foundation/knoll/hashchain.ts:128-153 | A snapshot passes if and only if it is the sealed history; otherwise the first differing index is reported, or the shorter length |
| AuditChain.AuditHeadPinsHistory | hdv-foundation/knoll/hashchain.ts:47-65 | Accepted audit chains with equal heads are the same chain over the same entries |
| AuditChain.CanonicalEntryInjective | hdv-foundation/knoll/hashchain.ts:47-56 | Audit entries with the same canonical text are the same entry |
| DesignatedLedger.DesignatedAuditLedger.Record | hdv-foundation/holloway/designated_ledger.ts:142-158 | One more numbered record, sealed on top of the head; nothing else changes |
| DesignatedLedger.DesignatedAuditLedger.Read | hdv-foundation/holloway/designated_ledger.ts:197-264 | The chain is given to Prime Hope, and to a claimed Acting or Former Prime whose live membership agrees when there is a registry, and to nobody else |
| LedgerReaders.ReadersExactly | hdv-foundation/holloway/designated_ledger.ts:197-264 | Under the authority's own registry, after any reign: Prime Hope reads; an identity reads if and only if it claims to act and is the last successor (the first prime when there was none), or claims to be former and was seeded or replaced by some succession; nobody else does; without a registry the claimed role decides |
| LedgerReaders.ReadUnder | hdv-foundation/holloway/designated_ledger.ts:197-201 | Reading the ledger of an authority after a reign gives the whole sealed chain to exactly those readers |
| LedgerReaders.RegistryIsHistory | hdv-foundation/holloway/sovereign.ts:111-117 | Who acts and who is former is the history of the successions |
| DesignatedLedger.DesignatedAuditLedger.Verify | hdv-foundation/holloway/designated_ledger.ts:227-246 | Whatever was recorded, the ledger verifies |
| DesignatedLedger.LedgerOnlyExtends | hdv-foundation/holloway/designated_ledger.ts:142-158 | Recording more keeps the sealed chain as a prefix |
| DesignatedLedger.LedgerHeadPinsHistory | hdv-foundation/holloway/designated_ledger.ts:95-114 | Ledgers that verify and have equal heads hold the very same records |
| Sovereign.SovereignAuthority.IssueDirective | hdv-foundation/holloway/sovereign.ts:125-152 | A directive with a fresh id is filed last, and its critical and anomalous flags are recorded, in that order |
| Sovereign.SovereignAuthority.CountermandDirective | hdv-foundation/holloway/sovereign.ts:162-185 | Only a Former Prime may, only a known directive can be, and only an active one is countermanded and recorded; a second countermand changes nothing |
| Sovereign.SovereignAuthority.Succession | hdv-foundation/holloway/sovereign.ts:207-222 | The outgoing prime becomes a Former Prime, the successor acts, and one critical record says so |
| Sovereign.SovereignAuthority.Directives | hdv-foundation/holloway/sovereign.ts:198-200 | The directives in issue order |
| LedgerReaders.CountermandAnswers | hdv-foundation/holloway/sovereign.ts:162-185 | A stranger is refused, then an unknown directive; any other answer is the directive as it stands afterwards, and only a fresh countermand changes anything: one override record that names it, its maker and the reason |
| LedgerReaders.SuccessionTells | hdv-foundation/holloway/sovereign.ts:207-222 | A succession is recorded as critical, by the successor, from whom to whom |
| LedgerReaders.FormersStandUnderOwnId | hdv-foundation/holloway/sovereign.ts:207-222 | Over every reign each Former Prime stands under his own id |
| Sovereign.DirectivesAreTotal | hdv-foundation/holloway/sovereign.ts:125-200 | Over every run the list has one directive per issue, in order, with distinct ids, and misses none |
| Sovereign.CountermandsAreRecorded | hdv-foundation/holloway/sovereign.ts:162-185 | A directive stands countermanded if and only if one override names it: that countermand's record, by someone who still is a Former Prime |
| Sovereign.CountermandIsFinal | hdv-foundation/holloway/sovereign.ts:162-185 | A directive's text never changes and a countermand is never lifted |
| Sovereign.PrimesMayReadForever | hdv-foundation/holloway/sovereign.ts:207-222 | Whoever has acted may read the ledger ever after, as Former Prime from the first succession on; Former Primes stay |
| Sovereign.LedgerAddsUp | hdv-foundation/holloway/sovereign.ts:125-222 | Kind by kind, the records of a run are the directives' flags and countermands plus successions and freeze overrides, each once |
| Sovereign.LedgerLength | hdv-foundation/holloway/sovereign.ts:125-222 | The ledger grows by critical flags + anomalous flags + countermanded directives + successions + freeze overrides |
| RateLimiting.RateLimiter.Hit | hdv-foundation/gateway/middleware.ts:260-279 | One hit: the answer, and the buckets after it, opportunistic sweep included |
| RateLimiting.RateLimiter.Sweep | hdv-foundation/gateway/middleware.ts:281-285 | The sweep deletes exactly the elapsed buckets, in whatever order the map yields them |
| RateLimiting.SweepIsInvisible | hdv-foundation/gateway/middleware.ts:260-285 | With a clock that never goes back, a limiter that sweeps at any size answers as one that never does |
| RateLimiting.SlidingBound | hdv-foundation/gateway/middleware.ts:260-285 | Any half-open interval one window long admits at most `MostWithin` hits of a key: 2 limit - 1, or limit for a window of 1 ms |
| RateLimiting.SlidingBoundReached | hdv-foundation/gateway/middleware.ts:260-285 | For every limit and window there is a run that reaches the bound |
| RateHistory.AnswersAreExact | hdv-foundation/gateway/middleware.ts:260-285 | Under any sweeping, each hit is answered with a window it falls into, admitted if and only if it is among the first `limit` of its key since that window opened, and told how many are left; a key's windows do not overlap |
| FixedWindow.BoundStep | hdv-foundation/knoll/validator.ts:229-245 | The invariant behind both bounds: one more hit keeps it, whether it opens a window or lands in one |
| Ledger.InMemoryLedger.LogRequest | hdv-foundation/apex/ledger.ts:58-74 | One more row, numbered in order, its cost rounded to six places |
| Ledger.InMemoryLedger.CostByStatus | hdv-foundation/apex/ledger.ts:84-90 | The reduce over the rows is the cost of a status |
| Ledger.TotalIsSuccessCost | hdv-foundation/apex/ledger.ts:84-90 | When only successes carry cost, the total is their total |
| Pricing.EstimateMonotone | hdv-foundation/billing/pricing.ts:141-200 | A price never falls when footprint or duration grow, and is never negative |
| Pricing.PriceIsExact | hdv-foundation/billing/pricing.ts:141-200 | Below the tier's allowance the request price and the footprint at the included rate, from there on at the overage rate, to the nearest micro-USD; the other rate does not matter; on a pass-through tier the fee alone |
| Allowance.AllowanceAccount.Consume | hdv-foundation/billing/allowance.ts:105-183 | One consumption: pass-through, cap check, spend, counters and ring buffer, as one new account and one record |
| Charges.EachIsChargedAsDue | hdv-foundation/billing/allowance.ts:105-183 | Over every run each consumption is charged, labelled, and accepted as the tier and cap set before it and the spend before it make due |
| Charges.IncludedMovesNothing | hdv-foundation/billing/pricing.ts:173-178 | An included amount set on an account changes neither costs nor rates, nor what is refused |
| Allowance.AllowanceAccount.SetAllowance | hdv-foundation/billing/allowance.ts:88-103 | A tier change resets both overrides; amounts are floored at zero |
| Allowance.RunAccounts | hdv-foundation/billing/allowance.ts:105-230 | Over every run: spend is the sum of accepted costs, every call counts once, kinds add up to the accepted count, and the log is exactly the last records of the full history |
| Allowance.RunCountsKinds | hdv-foundation/billing/allowance.ts:219-230 | Each kind's count is the number of accepted records of that kind |
| Allowance.CapHolds | hdv-foundation/billing/allowance.ts:105-183 | On a tier that is not pass-through spend never ends above both its start and the cap, up to the tolerance |
| Allowance.CapExactness | hdv-foundation/billing/allowance.ts:143-170 | Spend never passes max(start, cap) over any run if and only if the tolerance does not reach the next whole micro-USD, or spend is there already |
| Allowance.CapSlack | hdv-foundation/billing/allowance.ts:143-170 | A cap and a spend for which it does |
| Allowance.BalanceAddsUp | hdv-foundation/billing/allowance.ts:193-215 | includedRemaining + spent = included + overage, if and only if the account is not over an allowance half way between two micro-USD |
| Charges.BalanceIsHistory | hdv-foundation/billing/allowance.ts:193-215 | Over every run the balance shows, to the nearest micro-USD, what is left of the allowance and the cap last asked for since the last change of tier |
| Charges.KeptRecords | hdv-foundation/billing/allowance.ts:219-230 | Over every run the account has used the parameter-seconds of all it accepted, and keeps exactly its latest records |
| Allowance.BalanceOffByOne | hdv-foundation/billing/allowance.ts:193-215 | An account, reached by one setting and one consumption, for which it does not |
| Metering.AllowanceStore.Consume | hdv-foundation/billing/allowance.ts:264-299 | The tenant's account is created when missing and charged; no other tenant's account changes |
| Metering.MeterService.Observe | hdv-foundation/billing/meter.ts:111-151 | One event: skipped, or billed once by footprint or by its own cost, with all six counters |
| Metering.MeterConserves | hdv-foundation/billing/meter.ts:111-151 | Over every run each event is metered or skipped once, metered are the successes, and attributed cost is what spend grew by, on any tier |
| Charges.EventsAreMeteredAsDue | hdv-foundation/billing/meter.ts:111-151 | What is not skipped is billed by the footprint of the personas it lit, at the rate its tenant's spend makes due, or else at its own cost, under the kind of its destination |
| Charges.EventsKeepOthers | hdv-foundation/billing/meter.ts:111-151 | An event changes its tenant's account alone, opened if there is none, and never its settings; a skipped one changes nothing |
| Charges.BothKindsAreCounted | hdv-foundation/billing/meter.ts:111-151 | The meter's two counters are the numbers of events billed in each way |
| Metering.FallbackConserves | hdv-foundation/billing/meter.ts:111-151 | Ledger cost of what is billed = the account's cost, charged or rejected, of what is billed at its own cost + the ledger cost of what is billed by footprint, if and only if nothing billed at its own cost has a negative one |
| Metering.NegativeCostLeaks | hdv-foundation/billing/meter.ts:111-151 | A one-event run for which it does not |
| Metering.AllFallback | hdv-foundation/billing/meter.ts:111-151 | In a run without ephemeral successes what is billed at its own cost is exactly attributed + rejected cost |
| Orchestrator.MintedPassEnvelope | hdv-foundation/apex/packet.ts:33-73 | A minted packet is never refused for structure, hash or token, in any state of KNOLL |
| Orchestrator.MintedAsDrafted | hdv-foundation/apex/packet.ts:33-73 | Exactly when minting fails, and every field of what is minted |
| Orchestrator.ForwardTells | hdv-foundation/apex/orchestrator.ts:124-137 | APEX sends on one packet of its own to the peer named under `suggestedDestination`, with the same intent, data and priority, and nothing otherwise |
| Orchestrator.ForwardOfTokenedIsRefused | hdv-foundation/apex/orchestrator.ts:124-137 | What APEX forwards for a packet let through by its own token is refused, so the peer never hears of it, whatever its handler would do |
| Orchestrator.ApexOrchestrator.SendViaApex | hdv-foundation/apex/orchestrator.ts:104-104 | Minting that throws sends nothing; otherwise one dispatch of the minted packet |
| Orchestrator.ApexOrchestrator.Wire | hdv-foundation/apex/orchestrator.ts:112-117 | The injected peers, and no others, get a handler |
| Dream.SimulationEngine.Expand | hdv-foundation/dream/engine.ts:138-192 | The recursion grows the whole subtree; the flat list grows by its pre-order, the counters by its size |
| Dream.SimulationEngine.Simulate | hdv-foundation/dream/engine.ts:98-136 | Tree, flat list, ranking and frontier of one simulation |
| Dream.SimulationSize | hdv-foundation/dream/engine.ts:138-192 | breadth^l outcomes at each level l from 1 to the depth and none beyond; list and persona count are their sum |
| Dream.TreeIsWellPlaced | hdv-foundation/dream/engine.ts:150-192 | Every outcome names its parent, sits one level below it, and has scores in 0..1 |
| DreamScores.OutcomeTells | hdv-foundation/dream/engine.ts:160-188 | Each outcome's numbers are those of its persona's answer, to four places |
| DreamScores.ListIsPreOrder | hdv-foundation/dream/engine.ts:138-192 | The k-th outcome of the flat list is dreamt by the k-th persona, for a parent that stands before it with only that parent's descendants in between |
| Dream.ProbabilitiesBalance | hdv-foundation/dream/engine.ts:177-177 | The rounded probabilities of every group of siblings sum to within breadth/20000 of 1 |
| Dream.FrontierDominates | hdv-foundation/dream/engine.ts:242-253 | Whatever is left off the frontier is dominated by something on it |
| Dream.FrontierIsAntichain | hdv-foundation/dream/engine.ts:242-253 | No member of the frontier dominates another |
| Dream.FrontierIdempotent | hdv-foundation/dream/engine.ts:242-253 | Filtering the frontier again changes nothing |
| DreamScores.FrontierIsExact | hdv-foundation/dream/engine.ts:242-253 | The frontier is exactly what nothing beats, each at its place and in its order |
| Dream.RankedIsStableTopK | hdv-foundation/dream/engine.ts:132-132 | The ranking is a stable top-K: scores never rise along it, ties keep their order, and what is left out comes after all that is in |
| DreamScores.RankingIsExact | hdv-foundation/dream/engine.ts:132-132 | The ranking lists as many as were asked for, each once, by reward times feasibility times (1 - risk), ties in the order dreamt, above all that is left out |
| Dream.BestIsOnFrontier | hdv-foundation/dream/engine.ts:237-253 | The first of the ranking scores highest of all, and the frontier attains that score |
| Dream.SimulationBestIsPareto | hdv-foundation/dream/engine.ts:98-136 | The same for every simulation, with no condition on the persona |
| EvalBoard.RunBoard | hdv-foundation/eval/run_board.ts:197-275 | The board sends its cases in order through one live router and scores what comes back; an unknown role or an empty intent aborts it |
| EvalBoard.BoardTestsTheGate | hdv-foundation/eval/run_board.ts:197-264 | No case ever fails, and a board of up to two million cases passes if and only if the gate let through the legal cases and no other |
| EvalBoard.PassesIff | hdv-foundation/eval/run_board.ts:264-264 | Exactly when the board passes, in whole case counts |
| EvalBoard.GateIsExactIff | hdv-foundation/eval/run_board.ts:264-264 | The board agrees with the ground truth if and only if there is no fault or one that rounding cannot hide |
| EvalBoard.GateIsExact | hdv-foundation/eval/run_board.ts:264-264 | Up to two million cases it passes if and only if every case matches |
| EvalBoard.GateMissesOneInTwoMillion | hdv-foundation/eval/run_board.ts:500-502 | One more case and an escaped violation can pass unseen |
| EvalBoard.RateZero | hdv-foundation/eval/run_board.ts:500-502 | A rounded rate is zero if and only if there is nothing to count or 2,000,000 n < d |
| EvalBoard.PercentilesRise | hdv-foundation/eval/run_board.ts:504-513 | For every list, percentiles rise with p and lie between the rounded least and greatest value |
| EvalBoard.BoardPercentiles | hdv-foundation/eval/run_board.ts:315-349 | On a board, fastest case <= p50 <= p95 <= slowest case, exactly |
| BoardMeasures.ResultTells | hdv-foundation/eval/run_board.ts:212-247 | Each result tells of its own case and the reply it got: expectation, status, agreement, latency to three places |
| BoardMeasures.MintableMeansMinted | hdv-foundation/eval/run_board.ts:212-224 | The board aborts on exactly the cases whose packet cannot be minted |
| BoardMeasures.MetricsTell | hdv-foundation/eval/run_board.ts:315-349 | Every count of a report is the number of cases it counts and every rate their share, to six places |
| BoardMeasures.ReportPercentiles | hdv-foundation/eval/run_board.ts:504-513 | p50 and p95 stand at 50 and 95 hundredths of the way along the sorted latencies, interpolated, to three places |
| Recall.CosineSimilarity | hdv-foundation/hope/memory.ts:80-94 | The accumulator loop computes the similarity; a dimension mismatch is an error and a zero vector has similarity 0 |
| Recall.CauchySchwarz | hdv-foundation/hope/memory.ts:80-94 | (a·b)² <= (a·a)(b·b) for vectors of any length |
| Recall.SimilarityInUnit | hdv-foundation/hope/memory.ts:80-94 | Similarity always lies in 0..1 |
| Recall.SimilarityLaws | hdv-foundation/hope/memory.ts:80-94 | It is symmetric, and 1 for a vector against itself |
| RecallMeasures.SimilarityTells | hdv-foundation/hope/memory.ts:80-94 | A similarity is half of one more than the number that, times the two lengths, is the dot product, to six places |
| RecallMeasures.SimilarityOfMultiples | hdv-foundation/hope/memory.ts:80-94 | It is 1 for every positive multiple, 0 for every negative one, and one half at a right angle |
| RecallMeasures.DotSplits | hdv-foundation/hope/memory.ts:80-94 | A dot product is the sum of those of the parts, wherever the vectors are cut |
| Recall.InMemoryVectorStore.Upsert | hdv-foundation/hope/memory.ts:100-102 | A record replaces the one with its id, in place, or is added last |
| Recall.InMemoryVectorStore.Query | hdv-foundation/hope/memory.ts:104-112 | The linear scan returns the specified top-k, or the dimension error |
| Recall.QueryIsTopK | hdv-foundation/hope/memory.ts:104-112 | The answer is the exact tenant-filtered top-k in a strict total order |
| RecallMeasures.QueryTells | hdv-foundation/hope/memory.ts:104-112 | A query is refused if and only if some record of its tenant has another length; else it returns the k nearest of its tenant, or all when fewer, each once, strictly in order, nearer than all it leaves out |
| Recall.QueryIgnoresOrder | hdv-foundation/hope/memory.ts:104-112 | The answer does not depend on the order of insertion |
| Order.SortUnique | hdv-foundation/hope/memory.ts:110-110 | A strict total order has one sorted arrangement, so any correct sort gives the same list |
| ActionString.BuildActionString | hdv-foundation/companion/action_string.ts:19-57 | The string parses back to whole cells and a hold shorter than a cell; all durations are positive and they add up to exactly the frames asked for |
| ActionString.ParseInvertsJoin | hdv-foundation/companion/action_string.ts:41-57 | Parsing joined segments gives the motions back, in order |
| ActionString.SplitJoin | hdv-foundation/companion/action_string.ts:46-57 | Splitting undoes joining when no part contains the separator |
| Text.SerialIdInjective | hdv-foundation/apex/ledger.ts:60-60 | Padded serial ids never repeat, however far the counter runs past eight digits |
| Text.SerialTells | hdv-foundation/apex/ledger.ts:60-60 | A serial id is its prefix and the number in decimal, padded with zeros to eight digits and no further |
| Text.TrimTells | hdv-foundation/billing/allowance.ts:107-109 | Trimming takes white space from both ends, and all of it |

## Left out

- HTTP serving, event streams, the command line, health probes, payment, speech, image and video providers, demos and
  notebooks: input and output, and calls into code that is not part of this model.
- Durable mirrors: the ledger and audit are modelled without a repository; one that throws would break one row per call.
- `KnollActiveRouter`, which also writes to the security audit.
- Node and sub-manager activation in `dream/engine.ts:121-130`, and persona text: a persona is a function from its prompt
  to an id, a text, a score and the two numbers derived from the id. The tree is a value, not linked objects.
- Random number generation, the shapes of the sigmoid and of the logistic loss, `loadModel` and feature extraction.
- The gateway's `guard` (paths, headers, keys), progression, sessions, waitlist, checkout, queue intake and persona
  pipelines: only easy members.
- The demo tenant an allowance store is seeded with: one more `setAllowance` on a new account.
- Cost columns, rendering and fixture loading of the eval board; the embedder and the tokeniser of vector recall.
- Integer-like and `__proto__` keys in `sortValue`, lone surrogates, and JSON number formatting: a number is its token.
- Float rounding itself, timestamps that are not whole, fractional breadth, depth and top-K.
- Aliasing of objects handed out by reference (ledger rows, links, directives), and handlers that mutate a packet.
- A token beyond whether it is accepted, and a recogniser whose answer changes with the live primes during a run.
- RouterSafety.ShadowIsInvisible: rows are compared without the signature text, which names the constraints evaluated.
- Training.TrainingLeans: rates whose product `learningRate * l2` exceeds 1, with which one step overshoots zero.
