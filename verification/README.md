# Verified model of the agent platform's event pipeline

The platform runs agent workflows behind an API. Commands become events in Kafka topics; consumer
groups execute workflows, project events into PostgreSQL tables and raise alerts. This project models
that pipeline in Dafny and proves what it guarantees when workers crash, handlers raise, commits fail
or are only acknowledged late, partitions move between workers, and topics overtake each other.

Check everything with `dafny verify dfyconfig.toml`.

## How the model is laid out

- **Events**: values, rows, the event envelope, topics and the partition key.
- **Delivery, Consumer**: one delivery of one record as a function of its failure schedule, and the
  consumer worker as a class with its poll loop and retry loop, proved equal to that function.
- **Protocol, ProtocolSafety, ProtocolCoverage, ProtocolOrder**: a consumer group as a transition
  system. Any number of workers stand between any two of their awaits over growing logs, one database
  and one set of offsets. Safety, coverage below the committed offset, and log order hold in every run.
- **Simulation**: every delivery of the worker class is a run of that transition system.
- **Projector, ProjectionSession, Links, References, Confluence, StatusSafety**: the projection as a
  function on tables, as a class that writes rows in place, what each event writes, and what replays keep.
- **Workflow, ExecutionService, Publishing**: the trace of one execution attempt for every behaviour of
  gateway and publisher, and the service that produces it publish by publish.
- **Composition, StaleOwner**: API, execution workers and projection workers over the same logs; and the
  run that shows why a partition needs one owner at a time.
- **Alerting, AlertLoop, AlertPacing, AlertProjection**: `process_signal`, the loop through the table it
  reads, exactly when the cooldown holds, and the projection half of the loop as a run of the projection
  group.
- **Reals, Samples, Percentile, Drift, Divergence, Discrimination, Detection, DriftDetection, Anomaly,
  Moments**: the monitoring arithmetic over exact reals. The logarithm and the square root are parameters
  with stated properties.

"One owner at a time" means, for a partition: it is assigned only when no worker holds it or still has
records of it in its batch, and it is revoked only from a worker with none of its records in its batch.
A worker may crash at any time. Without this a worker can still apply a record it fetched before the
partition moved on, and `StaleOwnerReopens` shows what follows.

An awaited operation works, raises without effect, or takes effect and raises. A handler's reads, its
writes and its processed marker are one atomic transaction. Ids drawn with `uuid4` are fresh, and an
idempotent producer appends an event once. Time is a nondecreasing input.

Where code and comments differ, the model follows the code:

- Delivery is described as at-least-once. With `auto_offset_reset="latest"` a group that crashes before
  its first offset commit restarts at the log end. `LosslessIff` gives the exact condition.
- Dedupe in the database is described as keeping alerting consistent under restarts and scaling. The
  table is written from the published events, so two signals in close succession can both create an
  alert (`LagDefeatsCooldown`). `CooldownHoldsIff` says exactly when the next signal respects the
  cooldown, `SpacedIff` and `OneAlertIff` exactly when a whole run did.
- An event can be both processed and dead-lettered, because the offset commit is inside the `try`.
  `ProcessedYetDeadLettered` shows it, `ProcessedAndDeadLetteredIff` gives the exact condition on the
  schedule.
- When the audit publish after `execution.finished` raises, `execution.failed` follows.
  `BothOutcomesHappen` shows it, `BothOutcomesIff` gives the exact condition.
- The gauge of active executions is raised before the workflow is built and lowered in a `finally` that
  starts after that, so it stays too high by one when the construction raises.
- The title of every signal contains a colon, the separator of the dedupe key. `ConfusableIff` and
  `UniqueKeyIff` say exactly which signals can be taken for another.

## Model

| member | source | states |
|---|---|---|
| Events.LifecycleKey | app/messaging/kafka.py:37-43 | started, finished and failed events of one run get the same partition key although only the terminal ones carry `execution_run_id` at the top of the payload |
| Events.PartitionKeyIs | app/messaging/kafka.py:37-43 | the partition key of every body: a cost goes by its agent, else its run, else `entity_id`; deployment changes by the deployment, outcomes and inferences by the run, everything else by `entity_id` |
| Delivery.DeliveryIsExactlyOnce | app/messaging/kafka.py:220-272 | for every failure schedule the read model stays the replay of committed transactions whose ids are distinct and are exactly the group's markers |
| Delivery.DeliveryAppliesOnce | app/messaging/kafka.py:241-253 | one delivery applies the handler's effect at most once, together with its marker, and not at all if the marker was there |
| Delivery.RetryIsBounded | app/messaging/kafka.py:224-272 | at most `max_retries` handler calls, at most one dead letter, with the full retry count and the untouched event |
| Delivery.LetterNamesLastFailure | app/messaging/kafka.py:255-271 | a dead letter names what the last attempt failed with |
| Delivery.ReturnSettles | app/messaging/kafka.py:224-272 | a normal return leaves the record processed or dead-lettered and commits its offset exactly when the partition is still assigned |
| Delivery.OffsetMovesOnlyWhenDone | app/messaging/kafka.py:281-292 | the offset moves, even in a delivery that raises, only for an assigned partition, to just past a record that is processed or dead-lettered |
| Delivery.DeadLetteredIff | app/messaging/kafka.py:255-272 | a record is dead-lettered exactly when none of the attempts on the schedule passes and the dead-letter publish takes effect, whether or not it is already processed |
| Delivery.ProcessedAndDeadLetteredIff | app/messaging/kafka.py:253-272 | one delivery leaves the event processed and dead-lettered exactly when, besides, it was processed before or the transaction of some attempt took effect |
| Delivery.ProcessedYetDeadLettered | app/messaging/kafka.py:253-272 | for every retry budget, a delivery whose handler succeeds while the offset commits of the retry loop raise returns with the event processed and dead-lettered |
| Consumer.BaseConsumerWorker.Start | app/messaging/kafka.py:170-183 | starting twice keeps the first consumer |
| Consumer.BaseConsumerWorker.Stop | app/messaging/kafka.py:188-195 | stopping sets the shutdown flag and drops the consumer |
| Consumer.BaseConsumerWorker.Commit | app/messaging/kafka.py:281-292 | commits one past the record, and silently nothing when the partition is not assigned |
| Consumer.BaseConsumerWorker.PublishDlq | app/messaging/kafka.py:294-322 | appends one dead letter around the original event when the publish takes effect |
| Consumer.BaseConsumerWorker.TryOnce | app/messaging/kafka.py:225-256 | one pass through the `try` block has the specified effect on database, offsets, topics and call count |
| Consumer.BaseConsumerWorker.ProcessRecord | app/messaging/kafka.py:220-272 | the retry loop computes the specified delivery for every failure schedule |
| Consumer.BaseConsumerWorker.ConsumeBatch | app/messaging/kafka.py:205-207 | a poll's records are delivered in order until one delivery raises |
| Consumer.BaseConsumerWorker.RunForever | app/messaging/kafka.py:197-218 | the records delivered are those of the polls, in order and each once, up to the first delivery that raises; after a normal return of a run that was not shut down every polled record is processed or dead-lettered; the consumer is stopped on every way out |
| Consumer.RunIsExactlyOnce | app/messaging/kafka.py:197-279 | a whole run keeps the exactly-once books and calls the handler at most `max_retries` times a record |
| Consumer.RunIsInOrder | app/messaging/kafka.py:204-207 | the transactions of a run are a subsequence, in order, of the records it was given |
| Consumer.RunSettles | app/messaging/kafka.py:204-207 | after a normal return every record of the run is processed or dead-lettered |
| ProtocolSafety.ExactlyOnceEffect | app/db/models.py:335-348 | for any number of racing workers, crashes at any await and any redelivery, the read model is the fold of the handler over a duplicate-free sequence of logged records whose ids are exactly the group's processed-event rows |
| ProtocolSafety.MarkerCertifiesOutput | app/messaging/kafka.py:241-253 | a visible marker implies a completed handler call of that event all of whose publications are already in the topics |
| ProtocolCoverage.NoLossAboveFloor | app/messaging/kafka.py:255-292 | in every reachable state each record between the group's starting offset and its committed offset is processed or dead-lettered, whoever committed it |
| ProtocolCoverage.LosslessIff | app/messaging/kafka.py:173-181 | every record from the first reading position on is safe in every run exactly when the group had a committed offset before |
| ProtocolOrder.InOrderFold | app/messaging/kafka.py:197-272 | with one owner at a time the transactions of a partition are a subsequence of its log in log order, and a record below the committed offset missing from them is a duplicate id or dead-lettered |
| Simulation.DeliveryIsRun | app/messaging/kafka.py:220-272 | every delivery of the worker's code is an interleaving of the transition system, ending with the record off the batch or the worker gone |
| Projector.JsonSafeIsJson | app/projections/projector.py:40-51 | the stored form has no datetime and no tuple at any depth |
| Projector.JsonSafeKeepsJson | app/projections/projector.py:40-51 | values that are JSON already are stored unchanged, so normalising is idempotent |
| Projector.JsonSafeKeepsPaths | app/projections/projector.py:40-51 | exactly the same paths exist before and after, an instant at a path becomes its ISO text, and anything JSON already stays where it was |
| Projector.ApplyKeepsLinks | app/projections/projector.py:156-225 | any event applied to a consistently linked state leaves every step with its run and every run and cost link null or pointing at a row |
| Links.CreationWrites | app/projections/projector.py:96-115 | `deployment.created` and `graph.created` each write, column by column, one row of their own table under the payload's id and change nothing else; without a text id they raise |
| Links.UpdateWrites | app/projections/projector.py:99-121 | the two updates lay their changes over the row of their own table if it is there, and change nothing else |
| Links.CostWrites | app/projections/projector.py:218-225 | a cost writes one row of the costs table under the event's id, without its run link when that names no run that is there |
| Links.StepWrites | app/projections/projector.py:186-200 | a step writes one row of the steps table; its run is entered as running, without links, if it was not there, and not touched if it was |
| Links.LinkIff | app/projections/projector.py:156-168 | in every reachable state a deployment or graph row is there exactly when it was created and not deleted since, and a run links to it exactly when the run's last started event named it, it was there then, and it was not deleted since |
| References.ReferentialSafety | app/projections/projector.py:58-366 | in every reachable state of the projection group all links hold and no dedupe key has two alert rows |
| References.DeletionNullsLinks | app/db/models.py:171-174 | deleting a deployment removes its row, nulls exactly the run links that pointed at it and leaves every other row of every table as it was |
| References.GraphDeletionNullsLinks | app/db/models.py:175-178 | the same for graphs |
| ProjectionSession.ProjectionService.Upsert | app/projections/projector.py:271-285 | field-by-field assignment leaves the old row overlaid by the normalised payload, and a missing id changes nothing |
| ProjectionSession.ProjectionService.Update | app/projections/projector.py:294-309 | absent rows are ignored, present ones are overlaid |
| ProjectionSession.ProjectionService.DeleteDeployment | app/projections/projector.py:287-292 | the row goes and the links that named it become null |
| ProjectionSession.ProjectionService.UpsertAlert | app/projections/projector.py:311-321 | an alert is overlaid without normalisation, and refused when its dedupe key belongs to another row |
| ProjectionSession.ProjectionService.ResolveFkOrNone | app/projections/projector.py:323-336 | a link survives only if its row is there |
| ProjectionSession.ProjectionService.EnsureExecutionRunPlaceholder | app/projections/projector.py:338-366 | an unknown run gets a running placeholder, a known one is untouched |
| ProjectionSession.ProjectionService.HandleExecutionStarted | app/projections/projector.py:156-168 | the run row is upserted with links resolved against the local tables |
| ProjectionSession.ProjectionService.HandleExecutionFinished | app/projections/projector.py:170-184 | the outcome columns are written to a known run, and a missing column raises |
| ProjectionSession.ProjectionService.HandleStepCompleted | app/projections/projector.py:186-200 | the step is upserted after its run has been ensured |
| ProjectionSession.ProjectionService.HandleCostRecorded | app/projections/projector.py:218-225 | the cost is stored under the event id, without a run link if the run is unknown |
| ProjectionSession.ProjectionService.Apply | app/projections/projector.py:58-65 | dispatch over all event types meets the projection's specification |
| Confluence.ProjectionIsConfluent | app/projections/projector.py:156-200 | however steps, costs and other runs' events are interleaved with each run's lifecycle events, run rows and step rows end up the same, for any number of runs at once |
| Confluence.FinalRow | app/projections/projector.py:156-184 | column by column, a finished run's row is the started event under the outcome, with links resolved |
| StatusSafety.ConcludedByOutcome | app/projections/projector.py:156-184 | a row is succeeded or failed only if an outcome of its run was applied |
| StatusSafety.ConcludedStays | app/projections/projector.py:156-184 | if no started event of a run is applied after its outcome, a concluded run stays concluded under any further events |
| StatusSafety.StartedAndOutcomeConclude | app/projections/projector.py:156-184 | once started event and outcome have been applied in that order the row is concluded |
| StatusSafety.ReopensIff | app/projections/projector.py:156-184 | applying an event to a concluded run makes it not concluded exactly when the event starts that run |
| StatusSafety.ReopenedIff | app/projections/projector.py:156-184 | a run is concluded at some point of a replay and not at a later one exactly when an outcome was applied to its row and a started event of the run after it |
| Workflow.StepsFollowRoute | app/modules/orchestration/graph.py:57-68 | for every point of failure the step names published are a prefix of planner, tool_runner, validator if required, reviewer, and all of them come before a finished event |
| Workflow.EventsAreProper | app/modules/orchestration/service.py:286-437 | every step event carries its run, the agent name that belongs to its step name and times a duration apart, a validator step appears only when validation is required, costs and inferences are charged to the run and its context, outcomes carry the output or the error, and all carry the request's correlation and trace ids |
| Workflow.CostsShareKey | app/modules/orchestration/service.py:411-434 | all costs of one attempt go to one partition: the agent's, or the run's if there is no agent |
| Workflow.ReturnPublishesTerminal | app/modules/orchestration/service.py:220-282 | a normal return leaves a finished or failed event of the run in the topic |
| Workflow.LifecycleOfTrace | app/modules/orchestration/service.py:232-282 | the workflow publishes no started event, and its terminal events are about its own run with the matching status |
| Workflow.BothOutcomesIff | app/modules/orchestration/service.py:232-282 | for every attempt: both outcomes are published exactly when both model calls answer, the eight publishes of every step work, the finished event takes effect, it or the audit event after it raises, and the failed event takes effect |
| Workflow.BothOutcomesHappen | app/modules/orchestration/service.py:248-282 | for every request, an attempt in which only the audit publish after the finished event fails returns normally with both outcomes published |
| Workflow.TokensBalanceAtBoundaries | app/modules/orchestration/service.py:338-437 | at every step boundary step token usage equals model input plus output tokens and the cost events' tokens |
| Workflow.SpendIsConserved | app/modules/orchestration/service.py:352-434 | when the finished event was published, token metrics and costs of the whole attempt add up to what the two model calls reported, no more and no less |
| ExecutionService.PathIsRoute | app/modules/orchestration/graph.py:57-68 | following the graph's edges visits planner, tool runner, the validator exactly when validation is required, and reviewer |
| ExecutionService.RequestGraphWins | app/modules/orchestration/service.py:66-95 | the run is recorded with the request's own graph if it names one, else with that of the deployment's agent; validation is as requested and costs go to the deployment's agent and environment |
| ExecutionService.StartedComesFirst | app/modules/orchestration/service.py:104-142 | an admitted command leaves nothing, the started event, or the started event followed by its audit event, as far as the publisher gets |
| ExecutionService.ExecutionCommandService.EmitStep | app/modules/orchestration/service.py:297-437 | the eight publishes of a step happen in order until one raises |
| ExecutionService.ExecutionCommandService.Invoke | app/modules/orchestration/graph.py:71-74 | node after node along the edges publishes the trace of planner, tool runner, validator exactly when required, reviewer |
| ExecutionService.ExecutionCommandService.RunWorkflow | app/modules/orchestration/service.py:195-284 | the method publishes exactly the specified trace; the gauge of active executions is conserved however the attempt ends, and stays one too high exactly when building the workflow raises |
| ExecutionService.ExecutionCommandService.CreateExecution | app/modules/orchestration/service.py:54-164 | refusals publish nothing, and an admissible command publishes the started event and then its audit event, as far as the publisher gets |
| Publishing.Publisher.Publish | app/messaging/kafka.py:337-345 | an event is appended exactly when the publish takes effect |
| Composition.GroupsRun | app/workers.py:355-452 | the composed system, seen by the execution group or the projection group, is a run of that group's protocol |
| Composition.WorkflowExecutes | app/workers.py:342-352 | the execution handler publishes lifecycle events only for the run it was started for, and returns only after an outcome |
| Composition.PublishedFor | app/modules/orchestration/service.py:166-184 | whatever the execution handler publishes carries the triggering event's correlation and trace ids and run, and the agent and validation choice of its context |
| Composition.RunIsHealthy | app/modules/orchestration/service.py:106-135 | in every reachable state each outcome in the topics follows its run's only started event in the same partition |
| Composition.NoOrphan | app/workers.py:342-352 | once a started event is marked processed an outcome follows it in its partition; once the committed offset has passed it, that holds or it is dead-lettered |
| Composition.StatusIsSafe | app/projections/projector.py:156-184 | from any reachable state to any later one a projection with one owner of the partition never takes a run from succeeded or failed back to running |
| Composition.RowReopenedIff | app/projections/projector.py:156-184 | with any ownership, in every reachable state a row has been concluded and later not exactly when the projection applied an outcome to it and a started event of the run after that |
| Composition.CaughtUpIsConcluded | app/workers.py:342-352 | when the execution group processed the start and the projection has caught up, the row is concluded unless the projection dead-lettered one of the run's lifecycle events |
| Composition.PlatformStarts | app/workers.py:367-452 | the deployed groups, with the real workflow and the real projector, meet the hypotheses of the three theorems above |
| StaleOwner.StaleOwnerReopens | app/messaging/kafka.py:197-272 | for every retry budget, without single ownership there is a run in which a row is succeeded and later running |
| Alerting.KeyIdentifies | app/modules/alerting/service.py:44-44 | two signals without colons in types and ids share a dedupe key exactly when types, entity and title agree |
| Alerting.ConfusableIff | app/modules/alerting/service.py:44-44 | a signal shares its key with some signal without colons in types and ids that is about something else exactly when its own types or id contain a colon |
| Alerting.UniqueKeyIff | app/modules/alerting/service.py:44-44 | a key belongs to signals about one thing only exactly when none of its four fields contains a colon |
| Alerting.KeysCanCollide | app/modules/alerting/service.py:44-44 | with a colon in an entity id two different entities share a key |
| Alerting.AlertingService.FindExistingAlert | app/modules/alerting/service.py:83-87 | returns a row with the key if there is one |
| Alerting.AlertingService.ProcessSignal | app/modules/alerting/service.py:30-81 | strictly within the cooldown nothing is published or notified; otherwise one event with the existing or a new id, and a notification only after a publish that worked |
| AlertLoop.SilentIff | app/modules/alerting/service.py:46-54 | a signal publishes nothing exactly when the one visible row of its key was last sent less than a cooldown ago |
| AlertLoop.AlertSays | app/modules/alerting/service.py:56-80 | a published alert restates the signal's severity, title, description and source event, is open, is sent now, and is an update exactly of the row that was found |
| AlertLoop.LaggingLoopIsSafe | app/modules/alerting/service.py:44-81 | under any lag and loss: one row per key, every updated event carries the id of a row with its key and is applied in turn, and no row's last-sent time goes back |
| AlertLoop.LagDefeatsCooldown | app/modules/alerting/service.py:44-56 | two signals before the projection catches up create two alerts at one instant, whatever the cooldown |
| AlertPacing.CooldownHoldsIff | app/modules/alerting/service.py:45-56 | in any state the lagging loop can be in: no next signal of a key, whenever it comes, is sent less than a cooldown after an earlier send, exactly when every send still in its cooldown is covered by the visible row |
| AlertPacing.SpacedIff | app/modules/alerting/service.py:44-81 | over any run and any lag, the sends of a key are a cooldown apart exactly when every signal of the key found the sends still in their cooldown covered |
| AlertPacing.OneAlertIff | app/modules/alerting/service.py:44-81 | the sends of a key share one id, with updates after the first, exactly when every signal after the first send found a row |
| AlertPacing.FirstSendCreates | app/modules/alerting/service.py:44-81 | under any lag an update of a key new to the table has an earlier send of the key |
| AlertPacing.PromptIsEnough | app/modules/alerting/service.py:44-81 | projecting each event of a key before its next signal meets both conditions |
| AlertPacing.AlertRateBound | app/modules/alerting/service.py:46-81 | when signals find the sends in their cooldown covered, any window holds at most `span / cooldown + 1` sends of a key |
| AlertPacing.PromptAlerts | app/modules/alerting/service.py:46-81 | with prompt projection the sends of a key are one alert, created then updated, a cooldown apart, at most `span / cooldown + 1` in any window |
| AlertProjection.ProjectionGroupMovesTheLoop | app/projections/projector.py:311-321 | what an orderly run of the projection group commits from the alert topic is a run of the loop's projection moves, in line for each alert, ending in the same alert table |
| Percentile.Rank | app/modules/monitoring/queries.py:28-28 | the k-th sorted sample is at most t exactly when more than k samples are |
| Percentile.MonotoneInSamples | app/modules/monitoring/queries.py:23-35 | raising samples pointwise never lowers a percentile |
| Percentile.MonotoneInFraction | app/modules/monitoring/queries.py:23-35 | percentiles are nondecreasing in q on [0,1], across segment boundaries, and lie between any bounds of the samples |
| Percentile.PermutationInvariant | app/modules/monitoring/queries.py:23-35 | the order of the samples does not matter |
| Percentile.PercentileAtRank | app/modules/monitoring/queries.py:31-35 | at a whole rank k the percentile is at most t exactly when more than k samples are |
| Percentile.PercentileIsLinear | app/modules/monitoring/queries.py:31-35 | between ranks k and k + 1 the percentile is a + w * (b - a), a and b the order statistics found by counting |
| Percentile.PercentileCutsOff | app/modules/monitoring/queries.py:23-35 | of n + 1 samples more than q * n are at most the percentile, and at most q * n + 1 are less |
| Percentile.SummaryIsOrdered | app/modules/monitoring/queries.py:108-111 | p50 <= p95 <= p99, and of n + 1 samples more than 0.50 n, 0.95 n and 0.99 n are at most that, and at most one more than that are less |
| Drift.PopulationStabilityIndex | app/modules/monitoring/drift.py:26-47 | the loop over bins computes the specified score |
| Drift.PsiBounds | app/modules/monitoring/drift.py:36-47 | the score lies between the squared gaps of the bin shares relative to the larger and relative to the smaller share |
| Drift.PsiZeroIff | app/modules/monitoring/drift.py:31-47 | the score is zero exactly when a sample is empty, all samples are one value, or every bin has the same share of both |
| Drift.BinsSplitRange | app/modules/monitoring/drift.py:33-41 | the bins run from the least to the greatest sample of both lists, side by side and equally wide |
| Drift.ShareIs | app/modules/monitoring/drift.py:44-45 | a share is count over size, or 1e-6 when that is less |
| Drift.PsiNonnegative | app/modules/monitoring/drift.py:26-47 | the score is never negative |
| Drift.PsiSymmetric | app/modules/monitoring/drift.py:26-47 | exchanging the samples does not change it |
| Drift.PsiPermutation | app/modules/monitoring/drift.py:42-43 | reordering either sample does not change it |
| Drift.PsiAffine | app/modules/monitoring/drift.py:33-47 | the map x -> a*x + b with a > 0 on both samples does not change it |
| Drift.BinsTile | app/modules/monitoring/drift.py:37-43 | bin counts add up to the sample size plus the samples on interior edges |
| Drift.SampleInBins | app/modules/monitoring/drift.py:37-43 | every sample falls into exactly one bin, or exactly two when it lies on an interior edge |
| Divergence.KlDivergence | app/modules/monitoring/drift.py:50-56 | the loop adds the clamped terms of the common prefix |
| Divergence.JsNonnegative | app/modules/monitoring/drift.py:59-72 | the score is never negative, whatever the signs of the inputs |
| Divergence.JsSymmetric | app/modules/monitoring/drift.py:59-72 | exchanging the lists does not change it |
| Divergence.JsOfEqual | app/modules/monitoring/drift.py:59-72 | equal lists score 0 |
| Divergence.JsBounded | app/modules/monitoring/drift.py:59-72 | for nonnegative inputs the score is at most ln 2 * (1 + n * 1e-9), n the shorter length |
| Divergence.SignsMatter | app/modules/monitoring/drift.py:67-70 | with entries that cancel in the sum the bound fails |
| Discrimination.JsBounds | app/modules/monitoring/drift.py:59-72 | the score lies between 5/12 and, for nonnegative inputs and up to the clamps, 3/4 of the triangular discrimination of the normalised lists |
| Discrimination.JsZeroIff | app/modules/monitoring/drift.py:59-72 | the score is zero exactly when a list is empty or the normalised lists agree up to the clamp |
| DriftDetection.Evaluate | app/modules/monitoring/drift.py:128-134 | the findings of all detectors in detector order |
| DriftDetection.DefaultFindings | app/modules/monitoring/drift.py:75-142 | which drift the default detectors report from which score on, and from which score on it is critical |
| Detection.CollectInOrder | app/modules/monitoring/drift.py:128-134 | each detector's finding, if any, stands between those of the detectors before and after it |
| DriftDetection.EmbeddingImpliesOutput | app/modules/monitoring/drift.py:137-142 | an embedding-drift finding comes with an output-drift one of equal score and at least its severity |
| DriftDetection.NoDriftOnEqual | app/modules/monitoring/drift.py:137-142 | identical samples are never reported |
| DriftDetection.WindowsOverlapIff | app/workers.py:249-264 | baseline and current window share samples exactly while fewer than 30 are recorded |
| Anomaly.Evaluate | app/modules/monitoring/anomaly.py:116-122 | the findings of all detectors in detector order |
| Anomaly.CostImpliesLatency | app/modules/monitoring/anomaly.py:125-135 | with the cost threshold at or above the latency one, a cost finding comes with a latency finding of equal score and at least its severity |
| Anomaly.VarianceIs | app/modules/monitoring/anomaly.py:90-91 | the deviation's square is the mean of the squares less the square of the mean |
| Anomaly.VarianceZeroIff | app/modules/monitoring/anomaly.py:90-91 | the variance is zero exactly when all samples are equal |
| Anomaly.StdZeroIff | app/modules/monitoring/anomaly.py:89-91 | the substitute 1e-6 is used exactly when all samples before the latest are equal |
| Moments.ZScoreIff | app/modules/monitoring/anomaly.py:85-107 | with n varying samples of sum S and square sum Q before the latest x, a z-score detector reports exactly when (n x - S)^2 >= z^2 (n Q - S^2), is critical exactly when that holds for 1.5 z, and reports S / n as the baseline value |
| Moments.RollingIff | app/modules/monitoring/anomaly.py:57-75 | a rolling detector reports exactly when, on its window, n x > S and (n x - S)^2 > m^2 (n Q - S^2) |
| Moments.FlatZScoreIff | app/modules/monitoring/anomaly.py:89-92 | when the samples before the latest are equal, a z-score detector reports exactly when a million times the distance from them reaches the threshold |
| Moments.FlatRollingIff | app/modules/monitoring/anomaly.py:63-66 | the same for the rolling detector, above them |
| Moments.DefaultFindings | app/modules/monitoring/anomaly.py:116-135 | what the default detectors report of a varying series, in sums over its samples |
| Anomaly.ScoreInvariantIff | app/modules/monitoring/anomaly.py:88-92 | scores survive x -> a*x + b with a > 0 exactly when two samples before the latest differ, or a is 1, or all samples are equal |
| Anomaly.ZScoreInvariant | app/modules/monitoring/anomaly.py:85-107 | when two samples before the latest differ, a z-score finding is the same in any unit |
| Anomaly.ZScoreInvariantIff | app/modules/monitoring/anomaly.py:85-107 | every z-score detector reports a series the same in every unit exactly when two samples before the latest differ or all samples are equal |
| Anomaly.RollingInvariant | app/modules/monitoring/anomaly.py:57-75 | when two samples of the window before the latest differ, a rolling finding is the same in any unit |
| Anomaly.RollingInvariantIff | app/modules/monitoring/anomaly.py:57-75 | every rolling multiplier reports a window the same in every unit exactly when two of its samples before the latest differ or all are equal |

## Left out

- Registry commands, API routers, authentication, pagination, health probes, webhooks and email: I/O, or near-identical event construction.
- Serialization and datetime parsing: envelopes and timestamps are abstract values, so records that do not deserialize are not modelled.
- Ties when a step's duration is rounded to microseconds: rounded up here, to even in the library.
- Floating-point rounding in percentile, drift and anomaly scores: exact reals are used instead.
- Handlers of agent, model, tool, environment, metric, health, anomaly, drift, audit and heartbeat events: they write other tables with the same two helpers and are identities here.
- Deletion of agents, models and environments, and the agent and environment links of cost rows: what happens to dependent rows there is decided inside the ORM library.
- Column defaults, NOT NULL constraints and unmapped columns of the projected tables: rows are finite maps.
- Weak database isolation between a handler's reads and its commit: the transaction is atomic.
- A truncated or compacted log, and consumer lag metrics: logs only grow.
- In-process execution behind the in-memory publisher: only the deployed path through the execution workers is composed.
- The ordering of steps in the run DTO: a keyed sort.
- Consumer.BaseConsumerWorker.RunForever: does not model how `getmany` bounds a poll; polls are arbitrary lists of records.
- Percentile.MonotoneInFraction: q outside [0,1] is not modelled, because the code then indexes outside the list or from its end and no caller asks for it.
- Composition.NoOrphan: says nothing about started events below the group's starting offset, because `LosslessIff` shows when they are skipped.
- Anomaly.Evaluate: detectors that divide by zero or look into an empty window (threshold 0, window below 2) are not modelled; no default detector is one.
