# Verification model of the SOC platform's stateful and arithmetic core

This project models, in Dafny, the parts of the platform that keep state over long runs or carry
real arithmetic, and proves what they promise. Each module models one source file; methods and
classes follow code that updates fields or loops, functions follow code made of expressions, and
each such method is proved against a function whose properties are then proved as lemmas.

| module | what it models |
|---|---|
| `Baselines`, `Detectors` | the one-pass mean and variance of a UEBA baseline, and the detector that updates before it scores |
| `Sigma` (with `Glob`, `Text`) | the compiler from Sigma conditions and selections to nested `bool` queries |
| `SemanticCaches` (with `Vectors`) | the token-set embedding, cosine similarity and the cursor scan of the verdict cache |
| `Temperature`, `Calibration`, `Fusion` (with `Rounding`, `Sorting`) | temperature scaling, the equal-frequency calibration curve, its interpolation, and weighted voting |
| `CircuitBreakers`, `DlqWorkers` | the breaker under interleaved calls, and the dead-letter consumer that uses it |
| `Entities`, `Descriptions`, `Stitching`, `NoiseReduction`, `KillChain` | entity extraction, incident stitching over tenants, burst suppression and the kill-chain stage with its two queries |
| `RiskScore`, `DecisionGate` | the deterministic score and the L0 to L4 gate |
| `VectorStore`, `EvalTriage`, `LlmProvider`, `Workflows`, `Orchestrator` | chunking, triage metrics, the brace scanner, the workflow interpreter and parallel task groups |

`dafny verify dfyconfig.toml` checks the whole project.

## What the proofs show about the code

Where the code and its documentation or comments disagree, the model follows the code.

- **Breaker.** A failed probe does not move the opening time. Within one recovery time of opening
  the breaker bounds the loss (`LossIsBounded`, `OpenBreakerParks`); once that time has passed it
  admits every call until one succeeds (`FailedProbeDoesNotReopen`), so runs exist in which every
  job is lost (`LossIsUnboundedAfterRecovery`).
- **Dead-letter worker.** Its head comment says nothing is silently lost. `LostExactlyWhen` gives the
  exact cases; even with Redis in order, JSON that is not an object and admitted pushes that raise
  are lost (`LostWithoutFaults`).
- **UEBA.** An observation is scored after it was absorbed, so z*z*n <= (n-1)*(n-1); the limits of 6,
  9 and 11 sightings for scores of 2, 2.5 and 3 are tight. The alert-count metric is always fed 1
  and can never report an anomaly (`CountsNeverRaise`, `AnomaliesAreEarned`). Baselines are looked
  up without the tenant: scores do not depend on tenants, and sightings for some count towards the
  anomalies of all (`TenantsPlayNoPart`, `SightingsCountForEveryone`).
- **Sigma.** A name that is not a selection stands for `selection`, or for the first selection, so
  the negation in "a and not b" is lost (`NegationIsLost`); a conjunction of several names of which
  none compiles matches every document (`NothingLeftMatchesAll`).
- **Cache.** The default embedding ignores the dimension of the cache: with it, and a threshold
  above -1, stored features are found again exactly when that dimension is 128
  (`DefaultStoreThenFind`). The same holds for any other embedding and its length
  (`StoreThenFind`): with sentence-transformers installed a default cache keeps dimension 128 while
  the default model, all-MiniLM-L6-v2, yields 384 numbers. A threshold of -1 or below hits whenever
  there is an embedding at all. A scan sees exactly the tenants whose id extends this one after a
  colon (`ScanSeesTenant`); the ids in use are UUIDs or `default`, which have none.
- **Calibration.** The test for an empty bin never succeeds; interpolation is monotone exactly when
  the accuracies at the ends of runs of equal centres are in order.
- **Stitching.** An alert joins the incidents that the history calls for, and no others
  (`JoinsExactlyWhen`). The incident lookup has no tenant filter; isolation holds because every link
  joins rows of one tenant (`IncumbentInTenant`, `TenantsStayApart`).
- **Kill chain.** The stage is documented as that of member alerts, and the member tactics of an
  incident stay within its tenant (`MembersStayInTenant`). The fallback used when there are none has
  no condition on incident or tenant, so the tactics supplied are those of members exactly when
  there are some or no alert anywhere has a tactic (`SuppliedByMembersExactlyWhen`,
  `FallbackIsForeign`, `FallbackCrossesTenants`).
- **Gate.** Suppression is documented for alerts with "no TI", but its guard reads only the
  confidence of an indicator, and it comes before the branch that makes a known-bad indicator on a
  crown jewel critical. `KnownBadCrownJewel` says exactly when the alert is critical. With the
  shipped weights and thresholds only an alert excused twice can be suppressed so
  (`UnexcusedKnownBadIsCritical`, `KnownBadCrownJewelCanBeSuppressed`); the enrichment pipeline sets
  neither excuse, and a block-list hit has a confidence of at least 0.9.
- **Chunking.** The loop never ends exactly when the overlap is not smaller than the chunk
  (`ChunkingEndsExactlyWhen`).
- **Reply scanner.** One stray closing brace hides every later object: a top-level block is tried
  exactly when no stray brace comes before it (`TopLevelIsTriedUnlessStray`).
- **Orchestrator.** The tasks of a parallel group are described as independent, but share the
  previous output. Beside a task that reads it, the rows are independent of the order of the
  handlers exactly when none of them changes it (`OrderFreeBesideReader`); in general, exactly when
  no task can tell which others have run before it (`OrderFreeExactlyWhen`).

Conventions: floating-point numbers are exact reals; `math.sqrt`, `math.exp` and `math.log` are
function parameters that satisfy `Reals.IsSqrt` and `Temperature.IsExpLog`; clocks, randomness,
hashes, JSON parsing, regular expressions and the answers of providers, handlers and queues are
parameters. Lemmas without a row below say literally what a specification function computes, such
as `AddScoresVerdict`, `LevelsByEvidence`, `EntriesSayWhy`, `HistoryByAlert` and `ResolvesKeyByKey`.

## Model

| member | source | states |
|---|---|---|
| `Baselines.Baseline.Update` | shared/ueba/baseline.py:41-54 | one call leaves exactly the one-pass statistics of the old row and the observation; the stored deviation is recomputed from them |
| `Baselines.OnlineIsBatch` | shared/ueba/baseline.py:41-54 | for every history, feeding it one observation at a time gives its mean and its sum of squared deviations from that mean, which is never negative |
| `Baselines.StddevIsSampleStddev` | shared/ueba/baseline.py:57-60 | for every history of at least two observations the reported deviation is the nonnegative root of its sample variance |
| `Baselines.Baseline.ComputeZScore` | shared/ueba/baseline.py:63-66 | the score of an observation against the stored row, zero when the row has no spread |
| `Baselines.ZScoreBound` | shared/ueba/baseline.py:41-66 | an observation scored after it was absorbed has z*z*n <= (n-1)*(n-1), with equality whenever the earlier observations have no spread and the score is not zero |
| `Baselines.ZScoreNeedsHistory` | shared/ueba/detector.py:12-24 | a score of 2 takes 6 observations, of 2.5 takes 9 and of 3 takes 11, for every history |
| `Baselines.ThresholdsAreReached` | shared/ueba/detector.py:12-24 | those three limits are tight: after any number of equal observations a larger one scores 2, 2.5 or 3 if and only if there were at least 5, 8 or 10 of them |
| `Baselines.ConstantHistoryNeverScores` | shared/ueba/detector.py:36-65 | a history of equal observations has no spread, so its score is zero whatever is observed |
| `Detectors.Detector.UpdateBaseline` | shared/ueba/baseline.py:13-54 | the row of the key, created if missing with the tenant given and the default window, absorbs the observation; no other row changes, none is shared, and a stored row keeps its tenant |
| `Detectors.Detector.ScoreAlertCount` | shared/ueba/detector.py:36-65 | the alert-count metric reports, with its features, exactly what the batch statistics of the counts fed so far call for |
| `Detectors.CountsNeverRaise` | shared/ueba/detector.py:36-65 | in every run the alert-count metric is fed 1 each time, so what it calls for is nothing |
| `Detectors.Detector.ScoreRuleLevel` | shared/ueba/detector.py:67-93 | the rule-level metric reports, with its features, exactly the anomaly that the batch statistics of all levels of that subject call for |
| `Detectors.Detector.ProcessAlert` | shared/ueba/detector.py:27-95 | after every alert the stored rows are the replays of all observations so far, the anomalies reported are those of the batch statistics of the whole run, and the alert has fed exactly its agent, its two addresses and its user |
| `Detectors.FedByAlert` | shared/ueba/detector.py:34-93 | one alert adds to each baseline exactly its contribution, and nothing to the baselines of subjects it does not name; a baseline has the tenant of the alert that first contributed to it |
| `Detectors.AnomaliesAreEarned` | shared/ueba/detector.py:36-93 | no run raises an alert-count anomaly; none raises a rule-level anomaly before the sixth sighting of its subject, a high one before the ninth or a critical one before the eleventh |
| `Detectors.TenantsPlayNoPart` | shared/ueba/baseline.py:22-28 | any run of alerts with its tenants removed raises the same anomalies, subject by subject and score by score |
| `Detectors.SightingsCountForEveryone` | shared/ueba/detector.py:67-93 | once a subject has been seen at one level, for whichever tenants, an alert at a higher level reports it to its own tenant if and only if this is at least the sixth sighting, as high from the ninth and as critical from the eleventh |
| `Sigma.CompileSelection` | services/worker/app/sigma_worker.py:152-160 | the loop collects the filters of all entries in document order, and yields nothing for a non-mapping or when there are none |
| `Sigma.EntryMeaning` | services/worker/app/sigma_worker.py:162-175 | the filters of one entry match exactly the documents the entry holds on: a list under `contains` or `all` asks for every item as a part, another list for one item, a single value for a part, a start, an end, a regular expression or the value |
| `Sigma.KeyMeaning` | services/worker/app/sigma_worker.py:157-175 | for a key written as a field and modifier words with bars between them, the filters match exactly the documents on which the field, the words stripped and in lower case, and the value hold |
| `Sigma.ModifierMeanings` | services/worker/app/sigma_worker.py:167-175 | a plain text under `contains`, `startswith`, `endswith`, `re` or no modifier asks for a part, a start, an end, a match or the value of the field |
| `Sigma.SelectionMeaning` | services/worker/app/sigma_worker.py:152-175 | the query of a selection that compiles matches exactly the documents on which all its entries hold |
| `Text.SplitJoin` | services/worker/app/sigma_worker.py:126-139 | splitting undoes joining for parts that neither contain nor complete the separator |
| `Sigma.AndMeaning` | services/worker/app/sigma_worker.py:134-142 | the query of names joined by " and " matches exactly the documents on which all the selections that compile hold |
| `Sigma.CompilationIsExact` | services/worker/app/sigma_worker.py:112-160 | the exact meaning of every or-of-ands over names: each name stands for the selection it resolves to, names that do not compile are dropped, and only a condition that is one such name compiles to nothing |
| `Sigma.CompilationPreservesMeaning` | services/worker/app/sigma_worker.py:112-160 | where every name is that of a selection that asks something, the query compiled from the text of an or-of-ands matches exactly the documents on which it holds as written, down to the fields, modifiers and values of each selection; compilation terminates because every part is shorter |
| `Sigma.SelectionsAreAsWritten` | services/worker/app/sigma_worker.py:152-175 | whatever its keys, a selection compiles exactly when one of its entries asks something, and what it asks is what its keys say as they are written |
| `Sigma.ConditionDefaults` | services/worker/app/sigma_worker.py:116 | a rule without a condition asks for "selection", and blanks around a condition play no part |
| `Sigma.PaddingPlaysNoPart` | services/worker/app/sigma_worker.py:126-142 | blanks around the parts of a condition play no part, and blank parts none either |
| `Sigma.WordsAreGoodNames` | services/worker/app/sigma_worker.py:123-150 | every word other than the connectives is a name that a condition can mention |
| `Sigma.NegationIsLost` | services/worker/app/sigma_worker.py:134-150 | "a and not b" asks for a and for the fallback selection, whether b holds or not |
| `Sigma.NothingLeftMatchesAll` | services/worker/app/sigma_worker.py:134-142 | a conjunction of several names of which none compiles matches every document |
| `SemanticCaches.ComputeEmbedding` | shared/enrichment/semantic_cache.py:44-83 | the nested loops give the normalised projections of the set of tokens, whatever order the set yields them in; order and repetition in the text play no part |
| `SemanticCaches.TokensAreRuns` | shared/enrichment/semantic_cache.py:37-41 | any character but a letter, a digit and five marks separates the tokens of a text |
| `SemanticCaches.ProjectionByToken` | shared/enrichment/semantic_cache.py:63-76 | each token of the set adds 1 or takes 1 off in every dimension, by its hash bit |
| `SemanticCaches.NormalizedIsUnit` | shared/enrichment/semantic_cache.py:78-83 | an embedding has length 1 and the direction of its projections, unless these are zero |
| `SemanticCaches.TextDependsOnEveryFeature` | shared/enrichment/semantic_cache.py:106-118 | if one of the five features changes and the others stay, the text that is embedded changes, unless nothing but blanks is left |
| `Vectors.CauchySchwarz` | shared/enrichment/semantic_cache.py:86-103 | the squared inner product is at most the product of the squared lengths |
| `Vectors.SimilarityInRange` | shared/enrichment/semantic_cache.py:86-103 | the similarity of any two vectors of one length lies between -1 and 1 |
| `Vectors.SelfSimilarity` | shared/enrichment/semantic_cache.py:86-103 | a vector that is not zero has similarity 1 with itself |
| `SemanticCaches.SemanticCache.Store` | shared/enrichment/semantic_cache.py:281-326 | writes exactly one key, that of the normalised features, and says whether it did; a missing client, a blank text, an embedding error and a failing write answer false |
| `SemanticCaches.SemanticCache.Lookup` | shared/enrichment/semantic_cache.py:200-279 | misses without a client, text, embedding or nonzero query, or when one of the Redis commands the scan needs raises; else hits if and only if the threshold is at most -1 or some scanned entry is near enough, and returns the verdict of the first nearest entry, or none without a near one |
| `SemanticCaches.SemanticCache.ScanPage` | shared/enrichment/semantic_cache.py:236-266 | the inner loop keeps the best entry of all pages read so far, unless a command raises |
| `SemanticCaches.ScanReachesKey` | shared/enrichment/semantic_cache.py:225-270 | a scan whose pages hold at most `max_scan` keys reads every key of the tenant, however the keys are spread over the pages |
| `SemanticCaches.ScanStops` | shared/enrichment/semantic_cache.py:225-270 | the scan reads whole pages, and stops after the first with which it has seen `max_scan` keys, or the last |
| `SemanticCaches.StoreThenLookup` | shared/enrichment/semantic_cache.py:200-326 | after a store, a lookup of the same features hits at any threshold up to 1 and returns a verdict stored at similarity 1, when the embedding is not zero and has the dimension of the cache, and the tenant has at most `max_scan` keys |
| `SemanticCaches.StoreThenFind` | shared/enrichment/semantic_cache.py:200-326 | through the cache itself, for thresholds above -1 and working commands: features just stored are found again if and only if their embedding has the dimension of the cache |
| `SemanticCaches.DefaultStoreThenFind` | shared/enrichment/semantic_cache.py:151-188 | with the default embedding, which ignores the dimension given, features just stored are found again if and only if that dimension is the default one |
| `SemanticCaches.ScanSeesTenant` | shared/enrichment/semantic_cache.py:190-196 | a scan for one tenant sees another tenant's entries if and only if that tenant's id continues this one after a colon |
| `Calibration.BoundariesPartition` | shared/enrichment/calibration.py:77-91 | for at least 20 samples and any bin count asked for, the rounded boundaries start at 0, end at the length and strictly increase |
| `Calibration.BinsAsRequested` | shared/enrichment/calibration.py:80 | the curve has the number of bins asked for, but at least two and at most one for every three samples |
| `Calibration.BinsOfEqualFrequency` | shared/enrichment/calibration.py:77-91 | no bin is larger or smaller than an equal share of the history by more than one sample |
| `Calibration.UpdateCalibrationCurve` | shared/enrichment/calibration.py:61-99 | the curve has an entry for every bin, since none is empty, with the mean confidence and the accuracy of that slice of the sorted history |
| `Calibration.CentersInOrder` | shared/enrichment/calibration.py:89-99 | the centres of the bins never decrease |
| `Calibration.CurveConservesOutcomes` | shared/enrichment/calibration.py:77-99 | the accuracies weighted by bin size add up to the correct outcomes of the history |
| `Calibration.CurveConservesConfidence` | shared/enrichment/calibration.py:77-99 | the centres weighted by bin size add up to the confidences of the history |
| `Calibration.CurveIsSorted` | shared/enrichment/calibration.py:139-141 | sorting a curve by centre leaves it as it was built, and its accuracies are probabilities |
| `Calibration.Calibrate` | shared/enrichment/calibration.py:102-192 | the whole result for any raw confidence, curve and temperature: scaling, the value between the surrounding bins, the bin reported, and the error at temperature 0 |
| `Calibration.Surrounding` | shared/enrichment/calibration.py:143-150 | the scan finds the last bin centred at or below the confidence and the first centred at or above it |
| `Calibration.ValueIsBetweenNeighbours` | shared/enrichment/calibration.py:152-192 | the value lies between the accuracies of the two bins around the confidence |
| `Calibration.ValuesOfTheCurve` | shared/enrichment/calibration.py:152-192 | the value is constant outside the centres, on the straight line between neighbouring ones, and the mean of the ends of a run at the centre of the run |
| `Calibration.ReportedBin` | shared/enrichment/calibration.py:143-192 | the bin reported is the last one centred at or below the confidence, or the first bin |
| `Calibration.CalibratedIsProbability` | shared/enrichment/calibration.py:152-192 | interpolated values are probabilities when the accuracies are |
| `Calibration.ExactAtCenter` | shared/enrichment/calibration.py:170-176 | at the centre of a bin that no other bin shares the value is the accuracy of that bin |
| `Calibration.CalibrationMonotoneExactlyWhen` | shared/enrichment/calibration.py:139-192 | interpolation is monotone if and only if the bins at the ends of runs of equal centres are in order of accuracy; with distinct centres those are all bins |
| `Calibration.RawConfidenceMonotone` | shared/enrichment/calibration.py:102-192 | at a positive temperature the whole of calibration is then monotone in the raw confidence |
| `Calibration.CalibrateFromHistory` | shared/enrichment/calibration.py:61-192 | building a curve from any history and calibrating with it gives a probability |
| `Temperature.NeutralTemperature` | shared/enrichment/calibration.py:44-55 | a temperature of 1 changes nothing but the clamp |
| `Temperature.LogOddsAreDivided` | shared/enrichment/calibration.py:44-55 | scaling divides the log-odds of the confidence, clamped to between 0.001 and 0.999, by the temperature |
| `Temperature.ScalingMonotone` | shared/enrichment/calibration.py:44-55 | at a positive temperature a higher raw confidence never scales lower |
| `Temperature.TemperatureSoftensOrSharpens` | shared/enrichment/calibration.py:44-55 | the scaled confidence stays on its side of one half, moves towards it above temperature 1 and away from it below |
| `Fusion.FuseDecisions` | shared/enrichment/calibration.py:198-245 | the winner has the most weighted votes and more than every label first voted for earlier; its clamped share is returned; both errors are reported |
| `Fusion.Tally` | shared/enrichment/calibration.py:225-228 | the vote table holds, in the order of first votes, the weighted votes of each label |
| `Fusion.SoleDecision` | shared/enrichment/calibration.py:225-247 | a sole decision is fused to itself |
| `Fusion.VotesAreConserved` | shared/enrichment/calibration.py:225-228 | the rows of the table add up to all weighted votes |
| `Fusion.ClampIsIdle` | shared/enrichment/calibration.py:233-244 | for confidences that are probabilities and nonnegative weights the share is already between 0 and 1, so the clamp changes nothing |
| `Fusion.MajorityWins` | shared/enrichment/calibration.py:225-234 | a label with more than half of the weighted votes is the only possible winner |
| `CircuitBreakers.CircuitBreaker.Begin` | shared/connectors/circuit_breaker.py:31-35 | the first locked section of a call: the state check, and `half_open` cleared |
| `CircuitBreakers.CircuitBreaker.Check` | shared/connectors/circuit_breaker.py:47-55 | admits, refuses or opens by the count, the opening time and the clock |
| `CircuitBreakers.CircuitBreaker.Fail` | shared/connectors/circuit_breaker.py:57-60 | counts the failure and sets the opening time only if there is none |
| `CircuitBreakers.CircuitBreaker.Call` | shared/connectors/circuit_breaker.py:30-45 | an uninterrupted call is refused, returns or raises, and leaves the state checked, a fresh one or one with the failure recorded |
| `CircuitBreakers.StateIsTheTrace` | shared/connectors/circuit_breaker.py:15-60 | under every interleaving, `failures` counts the failing completions since the last success, `opened_at` is set exactly when they reach the threshold and is the time of the failure that reached it, and `half_open` is false whenever the lock is free |
| `CircuitBreakers.InFlightIsTheTrace` | shared/connectors/circuit_breaker.py:15-60 | the calls in flight are exactly those whose last event is a start that was admitted |
| `CircuitBreakers.NextEvents` | shared/connectors/circuit_breaker.py:15-60 | an event can come next if and only if it starts a call that is not running or ends one that is |
| `CircuitBreakers.AdmissionIsExact` | shared/connectors/circuit_breaker.py:47-55 | after any interleaved run a call is admitted if and only if fewer failures than the threshold were seen, or the recovery time has passed since the crossing failure |
| `CircuitBreakers.NoAdmissionWhileOpen` | shared/connectors/circuit_breaker.py:47-55 | a call that starts within the recovery time of the crossing failure is refused and changes nothing |
| `CircuitBreakers.FailedProbeDoesNotReopen` | shared/connectors/circuit_breaker.py:54-60 | once the recovery time has passed every later call is admitted until one succeeds, however many fail |
| `CircuitBreakers.OpeningInCheckIsDead` | shared/connectors/circuit_breaker.py:50-52 | the branch that opens the breaker inside the check is reachable if and only if the threshold is not positive |
| `DlqWorkers.DlqWorker.Handle` | services/worker/app/dlq_worker.py:68-132 | one popped job, with any of its awaits failing before or after it took effect, by an error or a cancellation: the new queues, retry counters and breaker, what became of the job and whether the worker stops |
| `DlqWorkers.EveryJobHasOneFate` | services/worker/app/dlq_worker.py:52-160 | after any run the two queues hold, newest first, exactly the cleaned payloads of the re-enqueued jobs and the stamped payloads of the parked ones, and every other popped job is lost |
| `DlqWorkers.RequeuedExactlyWhen` | services/worker/app/dlq_worker.py:68-132 | a job is re-enqueued if and only if it names its alert, has retries left, is counted and backed off without a fault, is admitted by the breaker, and the push takes effect |
| `DlqWorkers.ParkedExactlyWhen` | services/worker/app/dlq_worker.py:68-118 | a job is parked if and only if its text is unreadable, it names no alert, its retries are used up or the breaker refuses it, and the parked queue takes it |
| `DlqWorkers.StopsExactlyWhen` | services/worker/app/dlq_worker.py:52-132 | the worker stops if and only if an await that the job reaches is cancelled |
| `DlqWorkers.LostExactlyWhen` | services/worker/app/dlq_worker.py:52-132 | the exact cases in which a popped job is lost: JSON that is not an object, a job to be parked that does not reach the parked queue, a counter that cannot be read or whose write fails, a cancelled backoff, or an admitted push that fails without taking effect |
| `DlqWorkers.LostWithoutFaults` | services/worker/app/dlq_worker.py:52-132 | with everything but the push in order, a job is lost if and only if its text is JSON but not an object, or its push is admitted and does not take effect |
| `DlqWorkers.RetryCounterCounts` | services/worker/app/dlq_worker.py:92-153 | an alert's counter is its handles that were counted since the counter was last cleared, and never above the maximum |
| `DlqWorkers.CounterAfter` | services/worker/app/dlq_worker.py:78-145 | one job clears its counter by a push that works or by being parked as exhausted, raises it by any other attempt that is counted, and leaves all others |
| `DlqWorkers.BreakerAfter` | services/worker/app/dlq_worker.py:104-112 | only a push that is tried moves the breaker past its check: it closes it, is recorded as a failure at its end, or is cancelled and not recorded |
| `DlqWorkers.BreakerCountsFailedPushes` | services/worker/app/dlq_worker.py:104-125 | the breaker of a sequential worker counts the pushes that raised, with or without effect, since the last one that worked or since the worker was replaced |
| `DlqWorkers.OpenBreakerParks` | services/worker/app/dlq_worker.py:104-118 | while the breaker is open, the recovery time is not up and the worker is not stopped, nothing reaches the triage queue, no push is tried and every job is parked unless it is no object or Redis fails |
| `DlqWorkers.LossIsBounded` | services/worker/app/dlq_worker.py:104-125 | within one recovery time, until a push works or the worker is replaced, the pushes that raise are the rise of the breaker count, which cannot pass the threshold, and the jobs lost to them are no more |
| `DlqWorkers.LossIsUnboundedAfterRecovery` | services/worker/app/dlq_worker.py:1-10 | runs of any length over distinct alerts exist in which every job is lost, because a failed probe does not restart the recovery time |
| `Entities.ExtractEntities` | shared/correlation/entities.py:52-101 | the seen-set loop keeps the first mention of each entity with a value |
| `Entities.AlertsMention` | shared/correlation/entities.py:52-90 | which fields of an alert name entities, of which kind and in which role |
| `Entities.DedupKeyInjective` | shared/correlation/entities.py:48-49 | the text that is hashed tells different entities apart |
| `Entities.DistinctKeepsEachOnce` | shared/correlation/entities.py:91-101 | no two extracted entities are the same, none is empty and none that the alert mentions is missed |
| `Stitching.DbSession.FindOrCreateEntity` | shared/correlation/stitch.py:32-59 | finds the row of the tenant, type and value and refreshes it, or inserts one |
| `Stitching.DbSession.FindIncumbent` | shared/correlation/stitch.py:62-82 | answers with an open incident of the window that shares an entity and has the latest last alert, or with none if there is no such incident |
| `Stitching.DbSession.LinkEntitiesToIncident` | shared/correlation/stitch.py:85-102 | inserts the missing links and only those; distinct ids are never inserted twice |
| `Stitching.DbSession.LinkAlertEntities` | shared/correlation/stitch.py:115-131 | the loop over the extracted entities: rows found or created and links added, in order |
| `Stitching.DbSession.CreateNewIncident` | shared/correlation/stitch.py:152-201 | a new open incident with one alert and the description of that alert, linked to the entities, with its domains |
| `Stitching.DbSession.UpdateIncidentDomains` | shared/correlation/stitch.py:204-220 | adds the source types of all alerts that share an entity with the incident, and the cross-domain flag |
| `Stitching.DbSession.StitchIncident` | shared/correlation/stitch.py:105-149 | a whole stitch keeps the invariant and leaves the rows its lookup calls for; if an incident qualifies by the history the alert joins one that does, else it opens the next |
| `Stitching.DbSession.SingleAlertIncident` | shared/alert_dedup.py:86-107 | a standalone incident with one alert, its description and severity, and the time of the alert itself if it has one |
| `Stitching.StitchKeepsConsistency` | shared/correlation/stitch.py:105-220 | the relational invariant survives a stitch for every admissible lookup answer; it says of each incident its alerts, status and first and last time, and of each entity when it was first and last seen |
| `Stitching.JoinsExactlyWhen` | shared/correlation/stitch.py:62-82 | an alert joins an incident if and only if one is open, started at most six hours ago and has an alert of the tenant that names a common entity, and then one whose last alert is the latest of these |
| `Stitching.IncumbentInTenant` | shared/correlation/stitch.py:62-82 | the lookup has no tenant filter, but every incident it can answer with has the tenant of the alert |
| `Stitching.TenantsStayApart` | shared/correlation/stitch.py:62-102 | alerts in one incident have one tenant, and so have its linked entities and every domain it shows |
| `Stitching.IncidentsAreTheirAlerts` | shared/correlation/stitch.py:85-149 | an incident is linked to an entity if and only if some alert stitched into it names that entity |
| `Stitching.AlertsKeepTheirLinks` | shared/correlation/stitch.py:117-134 | every stitched alert stays linked to each entity it names, in a role in which it names it, and its incident to the same row |
| `Stitching.EntitiesShowWhenSeen` | shared/correlation/stitch.py:32-59 | every entity row is there because an alert names it, and shows when the first and the last alert that does was stitched |
| `Stitching.IncidentsShowTheirAlerts` | shared/correlation/stitch.py:177-220 | the source type of every alert stitched into an incident shows among its domains, as "endpoint" if it is blank; it is cross-domain if and only if it shows two; and it keeps the rule, source, severity and key of the alert that opened it |
| `Descriptions.SeveritiesAgreeFromFive` | shared/correlation/stitch.py:170-175 | the stitch path and the standalone path rate an alert alike if and only if its level is at least 5 |
| `Descriptions.SingleKeysApart` | shared/alert_dedup.py:92-94 | two standalone incidents have the same group key if and only if they are of the same alert, and a stitched incident never has the key of a standalone one |
| `Stitching.CountsAreConserved` | shared/correlation/stitch.py:140-201 | the alert counts of all incidents add up to the alerts attached over the run |
| `Stitching.AttachInWindow` | shared/correlation/stitch.py:62-82 | an existing incident gains an alert only while open and within six hours of its first alert |
| `NoiseReduction.MatchesDropGroup` | shared/noise_reduction.py:68-76 | the first listed group that is part of some group of the alert, or none if no listed group is |
| `NoiseReduction.NoiseGate.Dedup` | shared/alert_dedup.py:61-83 | without deduplication or a tenant a standalone incident, else a stitch; one incident counts one more alert |
| `NoiseReduction.NoiseGate.Evaluate` | shared/noise_reduction.py:79-139 | the ordered checks with their reasons; alerts dropped by level or list change no row; the count, the suppression and the fast tier of all others |
| `NoiseReduction.FirstAlertsPass` | shared/noise_reduction.py:109-122 | of the alerts counted in an incident exactly the first `noise_dedup_suppress_after` reach triage, and all of them without deduplication |
| `KillChain.FurthestReaches` | shared/correlation/killchain.py:100-108 | the first furthest of the stages supplied is as far as any of them reaches |
| `KillChain.TacticsReachTheirStages` | shared/correlation/killchain.py:15-59 | the twelve tactics, in any case and with dashes, blanks or underscores, have their stages at their places in the order, and no other text has one |
| `KillChain.IncidentStage.ComputeKillchainStage` | shared/correlation/killchain.py:68-122 | one computation is supplied with the member tactics, or with the fallback rows if there are none; the stage is then as far as any tactic ever supplied reaches, and the history grows by one entry exactly when it advances |
| `KillChain.IncidentStage.QueryMembers` | shared/correlation/killchain.py:77-86 | the distinct tactics of the alerts that share an entity with the incident |
| `KillChain.IncidentStage.QueryLatest` | shared/correlation/killchain.py:88-98 | the ten latest alert links with a tactic, of any incident and tenant |
| `KillChain.FallbackIsLatest` | shared/correlation/killchain.py:88-98 | the fallback rows are at least as new as every row after them or left out, and are ten, or all there are |
| `KillChain.MembersStayInTenant` | shared/correlation/killchain.py:77-86 | every tactic the member query finds comes from an alert stitched for the incident's own tenant |
| `KillChain.OwnTacticsAreMembers` | shared/correlation/killchain.py:77-86 | the tactic of every alert stitched into an incident that names anything is among those the member query finds |
| `KillChain.SuppliedByMembersExactlyWhen` | shared/correlation/killchain.py:72-98 | the tactics supplied are all of member alerts if and only if the member query finds one or no linked alert anywhere has a tactic |
| `KillChain.FallbackIsForeign` | shared/correlation/killchain.py:88-98 | the alert behind every tactic the fallback supplies shares no entity with the incident, by any of its links |
| `KillChain.FallbackReachesEveryTenant` | shared/correlation/killchain.py:88-98 | with no more rows than its limit the fallback supplies the tactics of all alerts of all tenants |
| `KillChain.FallbackCrossesTenants` | shared/correlation/killchain.py:77-122 | in a reachable state an incident of one tenant is supplied with the tactic of an alert of another |
| `KillChain.ChainIsShort` | shared/correlation/killchain.py:110-122 | the history has strictly increasing stages and at most twelve entries |
| `KillChain.ChainIsLinked` | shared/correlation/killchain.py:110-122 | each entry starts where the one before it ended, the first from the unknown stage |
| `RiskScore.Compute` | shared/enrichment/risk_score.py:71-187 | the accumulated score, and a written breakdown: each group of signals has its own points under its own entry, and entries and multiplier account for the score exactly |
| `RiskScore.Score` | shared/enrichment/risk_score.py:71-187 | the score lies between 0 and 100 |
| `RiskScore.FlagsAreWorthTheirWeight` | shared/enrichment/risk_score.py:137-175 | raising a location, user or technique flag adds exactly its own weight to the sum, and an excuse takes its penalty off, whatever the other signals are |
| `RiskScore.TiersAreWorthTheirWeight` | shared/enrichment/risk_score.py:86-135 | each tier of rule level and of deviation differs from the quiet value by its own weight |
| `RiskScore.EvidenceIsWorthItsWeight` | shared/enrichment/risk_score.py:99-125 | so does each kind of threat intelligence, asset criticality and matched vulnerability |
| `RiskScore.QuietScoresNothing` | shared/enrichment/risk_score.py:86-175 | a context in which no signal says anything has the sum 0 |
| `RiskScore.ShippedWeights` | shared/enrichment/risk_score.py:86-175 | the shipped weights, by what each makes of a quiet context |
| `RiskScore.RawMonotone` | shared/enrichment/risk_score.py:86-175 | the sum of points never falls when any threat signal rises or an excuse is dropped |
| `RiskScore.ScoreMonotone` | shared/enrichment/risk_score.py:71-187 | nor does the score, through the multiplier, the rounding and the clamp, for nonnegative tier-ordered weights and a multiplier of at least 1 |
| `DecisionGate.RoutingMonotone` | shared/enrichment/decision.py:43-129 | over the product order of all signals and the alert level, scoring and then gating never routes the more threatening alert lower, for any thresholds |
| `DecisionGate.ShippedThresholds` | shared/enrichment/decision.py:49-52 | with the shipped thresholds an alert with nothing but its score is suppressed below 15, closed below 25, triaged below 60, escalated below 85 and critical from there |
| `DecisionGate.ClosedAlertsAreQuiet` | shared/enrichment/decision.py:43-97 | with the shipped weights and thresholds an alert without an excuse that is closed without the model has rule level below 12, no threat intelligence, no matched vulnerability and no critical deviation |
| `DecisionGate.KnownBadCrownJewel` | shared/enrichment/decision.py:59-105 | a known-bad indicator on a crown jewel is critical exactly when neither the allowlist nor the suppression test comes first |
| `DecisionGate.UnexcusedKnownBadIsCritical` | shared/enrichment/decision.py:59-105 | with the shipped weights and thresholds every known-bad indicator on a crown jewel that is not allowlisted and not excused twice is critical |
| `DecisionGate.SuppressedKnownBadIsFlaggedTwice` | shared/enrichment/decision.py:69-80 | with the shipped weights and thresholds only an alert flagged both as a confirmed false positive and as benign noise can be suppressed so |
| `DecisionGate.KnownBadCrownJewelCanBeSuppressed` | shared/enrichment/decision.py:69-80 | a context that meets the suppression guard: known bad by threat score without confidence, on a crown jewel, with both excuses, which a caller may build but the enrichment pipeline does not |
| `VectorStore.Chunks` | shared/rag/vector_store.py:74-82 | the windowing loop ends when the overlap is smaller than the chunk and yields each window of words, cut at the end of the text |
| `VectorStore.ChunkText` | shared/rag/vector_store.py:74-82 | the chunks of a text are one for every step of its words, rounded up, and rebuild the word list |
| `VectorStore.ChunkCountIsCeiling` | shared/rag/vector_store.py:76-82 | the number of chunks is the word count over the step, rounded up |
| `VectorStore.ChunksKeepTheText` | shared/rag/vector_store.py:75-82 | the first chunk followed by every later chunk without its overlap is the word list of the text, short tails included |
| `VectorStore.WordsOfJoin` | shared/rag/vector_store.py:75-80 | splitting a joined chunk gives back its words |
| `VectorStore.WordsAtSpace` | shared/rag/vector_store.py:75 | each of the six white space characters separates words |
| `VectorStore.ChunkingEndsExactlyWhen` | shared/rag/vector_store.py:77-82 | on a text with words the loop guard holds for ever if and only if the overlap is not smaller than the chunk |
| `EvalTriage.EvalMetrics.Accumulate` | scripts/eval_triage.py:358-410 | one result changes all counters, sums and lists as `Add` says, which `AddCounts`, `AddScoresVerdict` and `AddScoresTheRest` spell out |
| `EvalTriage.EvalMetrics.CountVerdict` | scripts/eval_triage.py:370-380 | correct, else a missed threat, else a false alarm, else nothing |
| `EvalTriage.ComputeMetrics` | scripts/eval_triage.py:441-452 | the loop gives the summary of the fold of all results, rounded |
| `EvalTriage.EvalMetrics.Summarise` | scripts/eval_triage.py:160-177 | each rate is its quotient to four digits, with a denominator of at least 1, each latency its percentile to one digit |
| `EvalTriage.BrierWithinTotal` | scripts/eval_triage.py:140-142 | for confidences that are probabilities the Brier sum is at most the number of results |
| `EvalTriage.SummaryRatesAreProportions` | scripts/eval_triage.py:112-177 | every rate of the summary lies between 0 and 1 after its rounding, the Brier score too for confidences that are probabilities |
| `EvalTriage.SummaryIgnoresOrder` | scripts/eval_triage.py:358-472 | the whole summary of any two permutations of the results is equal |
| `EvalTriage.TotalsAreBounded` | scripts/eval_triage.py:358-410 | after any list of results positives and negatives add up to the total, misses, false alarms and hits stay within what they are taken from, and the Brier sum is not negative |
| `EvalTriage.OrderDoesNotMatter` | scripts/eval_triage.py:358-452 | the totals of any two permutations of the results are equal |
| `EvalTriage.EvalMetrics.LatencyP95` | scripts/eval_triage.py:152-158 | the element of the sorted latencies at 95% of their number, or 0 without any |
| `EvalTriage.EvalMetrics.LatencyP50` | scripts/eval_triage.py:148-150 | the middle of the sorted latencies, or 0 without any |
| `EvalTriage.P95CoversMost` | scripts/eval_triage.py:152-158 | at least 95% of the latencies are at most that percentile, which is one of them |
| `EvalTriage.P50CoversHalf` | scripts/eval_triage.py:148-150 | at least half of the latencies are at most the median |
| `EvalTriage.PercentilesOfSorted` | scripts/eval_triage.py:148-158 | by any sorted list of the latencies: the percentile is the element at 95% of their number, the median the middle one or the mean of the two in the middle |
| `EvalTriage.PercentilesIgnoreOrder` | scripts/eval_triage.py:148-158 | neither percentile depends on the order of the latencies |
| `Workflows.WorkflowEngine.Run` | shared/workflows/engine.py:51-104 | triggers, then the steps in order: the results and the outside effects are those of the step function, or none if nothing triggers |
| `Workflows.WorkflowEngine.RunStep` | shared/workflows/engine.py:108-146 | a step is skipped, or calls its provider and then performs or lists its actions |
| `Workflows.WorkflowEngine.Query` | shared/workflows/engine.py:185-205 | an unknown provider, a dry run and a real query each answer as the code does, and only the last has an effect |
| `Workflows.WorkflowEngine.RunActions` | shared/workflows/engine.py:127-146 | intended actions are interpolated in order; a real run performs those of known kinds and records what each answers, a dry run only lists them |
| `Workflows.StepsRunUnlessFalse` | shared/workflows/engine.py:118-146 | in every run a step is skipped if and only if it has a condition that is not true of the alert, and else intends its actions in order |
| `Workflows.ProviderIsQueried` | shared/workflows/engine.py:185-205 | a provider call yields an error if the provider is unknown, what would be asked in a dry run, and the answer to a query in a real one |
| `Workflows.InterpolationKeepsShape` | shared/workflows/engine.py:174-183 | interpolation keeps the structure of a template |
| `Workflows.TextIsFilledInPlace` | shared/workflows/context.py:34-79 | a text is its literal parts as they are with each placeholder filled in place |
| `Workflows.PlaceholderReads` | shared/workflows/context.py:60-77 | a placeholder reads the alert, the trigger data or the outputs of the steps by its first word, and the rest of its path key by key |
| `Workflows.ActionsPerform` | shared/workflows/engine.py:127-146 | a dry run only lists the actions of a step; a real run performs those of known kinds in order and records what each answers, and an error for the others |
| `Workflows.WorkflowContext.SetStepOutput` | shared/workflows/context.py:97-99 | afterwards the name reads back the output and every other name what it did before |
| `Workflows.RunsPlanAlike` | shared/workflows/engine.py:66-183 | whatever the providers answer, any two runs of a workflow on an alert, dry or real, skip the same steps and intend the same actions in type and structure |
| `Workflows.IndependentActionsAgree` | shared/workflows/engine.py:167-183 | an action that mentions no step output is intended in exactly the same form by any two runs |
| `Workflows.DryRunIsExact` | shared/workflows/engine.py:108-219 | if no step queries a registered provider, both runs intend exactly the same actions and see the same outputs, the dry run does nothing and the real run performs exactly what was intended, in order, but for actions of unknown kinds |
| `Workflows.DryRunHasNoEffects` | shared/workflows/engine.py:185-219 | a dry run never touches the outside world, whatever its providers |
| `Workflows.StepsSeeEarlierOutputs` | shared/workflows/context.py:34-99 | a step interpolates from the outputs of strictly earlier steps: for each name, the last one that produced an output |
| `LlmProvider.FirstObject` | shared/connectors/llm_provider.py:88-107 | the scan tries exactly the blocks, disjoint and left to right, up to the first that parses to an object |
| `LlmProvider.ParseLlmResponse` | shared/connectors/llm_provider.py:79-107 | the whole reply if it is an object, else the leftmost block that is, with a default for its success; else the text itself as a summary |
| `LlmProvider.ValidateAndParse` | shared/connectors/llm_provider.py:159-241 | the same attempts with a code fence in between; the first object found must satisfy the schema |
| `LlmProvider.BalancedTextIsScannedExactly` | shared/connectors/llm_provider.py:88-107 | where no prefix has more closing than opening braces, the segments tried are exactly the top-level blocks |
| `LlmProvider.TopLevelIsTriedUnlessStray` | shared/connectors/llm_provider.py:88-107 | a top-level block is tried if and only if no stray closing brace comes before it |
| `LlmProvider.TriedIsTopLevelUnlessStray` | shared/connectors/llm_provider.py:195-213 | a segment that is tried is a top-level block if and only if no stray closing brace comes before it |
| `LlmProvider.StrayBraceHidesObject` | shared/connectors/llm_provider.py:88-107 | texts with one top-level block after a stray brace, in which nothing is tried |
| `Orchestrator.OrchestrationEngine.ExecuteRun` | shared/orchestrator/engine.py:84-179 | every configured task gets one row, in order; its input has what the task states and, for other keys, the value of the last task of the group before that produced them; the row records what its handler answered; if no handler changes the previous output it is given, whatever that is, the rows and the last output are those of the groups run one after the other |
| `Orchestrator.OrchestrationEngine.Gather` | shared/orchestrator/engine.py:96-106 | handlers run in some order, each seeing the shared previous output as the ones before it left it; if none changes this output the rows are those of the group whatever the order |
| `Orchestrator.SameForEveryOrder` | shared/orchestrator/engine.py:96-106 | if no handler of the group changes this previous output, every order gives the rows of the group |
| `Orchestrator.OrderFreeBesideReader` | shared/orchestrator/engine.py:96-158 | beside a task that returns the previous output, all orders of any group give the same rows if and only if no handler of the group changes that output |
| `Orchestrator.AlwaysOrderFree` | shared/orchestrator/engine.py:96-158 | for every previous output at once: a group is safe beside a reader if and only if its handlers never change what they are given |
| `Orchestrator.OrderFreeExactlyWhen` | shared/orchestrator/engine.py:96-158 | all orders of a group give the same rows if and only if each task writes the row it writes alone, whichever other tasks have run before it |
| `Orchestrator.OrchestrationEngine.MergeOutputs` | shared/orchestrator/engine.py:107-111 | the loop over the rows of a group gives their union in configuration order |
| `Orchestrator.ParallelRunIsMaximal` | shared/orchestrator/engine.py:86-92 | the run of parallel tasks after a head is as long as it can be |
| `Orchestrator.GroupsPartition` | shared/orchestrator/engine.py:84-96 | the groups concatenate to the configuration; each is a head and parallel tasks, and later heads are not parallel |
| `Orchestrator.EveryTaskRunsOnce` | shared/orchestrator/engine.py:84-179 | one row per configured task, in order, with at least the input the task states |
| `Orchestrator.MergedIsLastWriter` | shared/orchestrator/engine.py:107-111 | each key of the merged output comes from the last task, in configuration order, that produced it |

## Left out

- Floating point: rounding error, NaN and infinities. All arithmetic is over exact reals, and square root, `exp` and `log` are arbitrary functions with the laws stated in `IsSqrt` and `IsExpLog`.
- Calibration: the ring buffer that collects the history (`ConfidenceHistory`); any history is an input here.
- Detectors.Detector.ProcessAlert: the description of an anomaly, which formats its other fields, and time stamps are not modelled.
- Sigma: parentheses and `1 of` have no reading of their own in the code, so neither here: such a condition is a name like any other. Names that contain or complete a connective are excluded by `GoodName`.
- Sigma: the indexer is a map of single-valued keyword fields compared by their text, and a `bool` query without clauses matches every document; backslash escapes in wildcard patterns, the type of scalars, and the scan and alert-raising code are not modelled.
- SemanticCaches.ComputeEmbedding: the hash bit of a token and a dimension is a function parameter; Unicode word characters and case folding beyond ASCII, and the sentence-transformer embedding, are not modelled.
- SemanticCaches.SemanticCache.Lookup: no key expires during a scan; `requires pages != []` says that a scan has a first reply.
- SemanticCaches.ScanSeesTenant: tenant ids with the special characters of Redis patterns (`*`, `?`, `[` and the backslash) are not covered.
- CircuitBreakers: the name of the breaker and the logging; event times are arbitrary and need not increase.
- DlqWorkers: the length of the backoff, a job lost while it is popped, and the guards for a missing client, which `start` connects before the first job.
- Stitching: SQL tables are maps and sets and one clock reading serves a call; concurrent sessions, uniqueness errors and the transient `highest_level` attribute are not modelled.
- Entities.DedupKeyInjective: digests are assumed free of collisions; the key text stands for its digest.
- NoiseReduction.NoiseGate.Dedup: models the path where stitching succeeds, not the rollback to a standalone incident, and tenant ids are not parsed.
- NoiseReduction: reading the comma-separated settings, and the later adjustment of alert counts by the orchestrator's handlers.
- KillChain.IncidentStage.ComputeKillchainStage: stage and history are fields of one incident here rather than columns, and the clock is a parameter.
- RiskScore.Compute: weights and thresholds are parameters; reading them from the settings is not modelled.
- DecisionGate: the reason texts.
- VectorStore.Chunks: requires an overlap smaller than the chunk, because the loop otherwise never ends, which `ChunkingEndsExactlyWhen` proves; storing the chunks and the search are left out.
- EvalTriage.ComputeMetrics: rounds exact reals, not decimal digits of binary floats; the promotion gates and data loading are not modelled.
- LlmProvider.ValidateAndParse: the code fence expression, the schema and the JSON parser are parameters; prompt masking, the normalisation of the answer and the retries around the model call are left out.
- Workflows: CEL evaluation, the placeholder expression and `str()` are parameters; providers and builtin actions answer by functions that do not change the alert or the context, and the skip and trigger reasons are left out.
- Orchestrator.OrchestrationEngine.ExecuteRun: run and task status fields, time stamps, skill memory and database errors, which end a run early, are left out.
- Orchestrator.OrchestrationEngine.Gather: a handler is one step, and shares with the others of its group the previous output but not the database session; changes it makes later, or to a task row that is already written, are not modelled.
- HTTP, mail and chat connectors, the API and user interface, ORM declarations and seeding scripts have no state or arithmetic of their own worth proving.
