# DevFeed state, verified

Models in Dafny of the places where this repository keeps derived state in step with base state, lets
several parties interleave, or recovers from interruption, with proofs of what they promise. Tables are
finite maps, statements and triggers are methods on classes that hold them, a crash is the ability to stop
after any step, and a run is a sequence of steps of a transition system (`Runs.dfy`).

| file | models |
|---|---|
| `GroupedView.dfy`, `Sums.dfy`, `DailyUsage.dfy` | daily inference totals kept by signed deltas, and the general theory of such views |
| `SearchOutbox.dfy`, `SearchDrain.dfy`, `UncapturedColumns.dfy` | search change capture, the paging indexer that drains it, that it does, and what the triggers do not see |
| `MeasurementWindow.dfy` | the measurement barrier of the load tests |
| `IndexSwap.dfy` | the concurrent swap of the automation index |
| `Provisioning.dfy` | credential provisioning and its consumers |
| `DecisionCalls.dfy` | the per-array projection of topic decision calls |
| `MatchingTokens.dfy`, `PreparedTopics.dfy` | partner matching: the token index, invalidation and the worker |
| `CatalogRevisions.dfy` | revisions that stand for the contents of tables, and snapshots kept under them |
| `NormalizeTags.dfy`, `TagForesight.dfy` | renaming and merging of tags through a mutable index, and what can be foreseen of a pass |
| `Slugs.dfy` | source and article slugs |
| `ReleaseNumbers.dfy`, `VersionLiteral.dfy`, `VersionBump.dfy` | release numbers, the version literal of a manifest, the bump with rollback |
| `BenchmarkRunner.dfy` | the resumable runner of paid calls |
| `SchemaClosure.dfy` | the reachable-schema worklist |
| `EnvFile.dfy` | the rewriting of `.env` |
| `FixtureKeys.dfy`, `Remainders.dfy` | generated keys of the reader fixture |
| `Options.dfy`, `MinMax.dfy`, `Decimals.dfy`, `PythonText.dfy`, `Runs.dfy` | shared definitions |

`dafny verify dfyconfig.toml` checks the project.

## Where the code does not meet its promise

Each is a lemma with the failing inputs; the module also proves when the code does meet the promise.

- Search documents: article documents read a rewritten title, which migration 0011 added, and the content type, and
  neither column is captured (`UncapturedColumns.RewrittenTitleStaysStale`; exactly when in
  `UncapturedColumns.GoesStaleUnnoticedIff`).
- Measurement barrier: a reader that is stopped at the barrier goes on being counted, so the measurement can start
  without it, and even without any (`MeasurementWindow.MeasurementCanStartEmpty`; exactly which readers are parked is
  in `MeasurementWindow.MeasurementStartsFromParkedReaders`).
- Topic decision calls: jsonb equality takes 1 and 1.0 for the same number, so respelling a token count skips
  the trigger although the projection changes (`DecisionCalls.RespelledNumberGoesUnnoticed`; the exact
  condition is in `DecisionCalls.Decisions.Update`).
- Tag normalization: a merged tag's slug lingers in the index and can receive a later tag
  (`TagForesight.MisledPass`; exactly when is `TagForesight.TargetsAliveIff`), and the preview, which changes neither
  tags nor index, can report a rename where applying merges (`TagForesight.PreviewMissesAMerge`; exactly when they
  report the same is `TagForesight.AppliedAsPreviewedIff`).
- Source slugs: a twelve-digit suffix can complete a UUID (`Slugs.TwelveDigitsCompleteUuid`; exactly when is
  `Slugs.CandidateIsAllowed`).
- Version bump: an independent edit made before the bump writes that manifest is overwritten
  (`VersionBump.EarlyEditIsLost`; exactly which edits survive is `VersionBump.OutsideEditSurvivesIff`), and a torn
  manifest write is neither the old nor the new text and is not restored (`VersionBump.HalfWriteStays`; exactly when
  is `VersionBump.TornWriteStays`).
- Benchmark runner: dashes in ids can make two pieces of work share a folder, and only one is called
  (`BenchmarkRunner.DashedPlanCollides`; exactly when is `BenchmarkRunner.OwnFoldersIff`).
- `.env`: a Unicode line separator in a value grows the file (`EnvFile.SeparatorsPileUp`; the exact condition is in
  `EnvFile.RewriteIsIdempotentIff`).
- Reader fixture: scales that give 263 or 294 topics repeat article-topic keys (`FixtureKeys.TopicKeysDistinctIff`).

## Model

| member | source | states |
|---|---|---|
| DailyUsage.StatementIsExact | migrations/versions/0031_inference_daily_usage.py:65-87 | After any multi-row INSERT, UPDATE, DELETE or TRUNCATE the trigger leaves exactly the GROUP BY of the new ledger, given that of the old one |
| DailyUsage.RunIsExact | migrations/versions/0031_inference_daily_usage.py:61-101 | From the backfill on, over every run of statements, the daily table equals the GROUP BY totals key for key and metric for metric |
| DailyUsage.RowsCountCalls | migrations/versions/0031_inference_daily_usage.py:69-73 | No group is left with zero calls: a key has a row exactly when some ledger row belongs to it, and its call count is the number of those rows |
| DailyUsage.RowsRespectCaps | migrations/versions/0031_inference_daily_usage.py:39-50 | In every row cached input stays below input, reasoning below output, and the statuses within the calls |
| DailyUsage.GroupsConserveTotals | migrations/versions/0031_inference_daily_usage.py:34-50 | Summing a metric over all groups gives its sum over the whole ledger |
| DailyUsage.Tables.constructor | migrations/versions/0031_inference_daily_usage.py:61-63 | The backfill starts the daily table as the GROUP BY of the ledger there is |
| DailyUsage.Tables.ApplyDelta | migrations/versions/0031_inference_daily_usage.py:64-73 | One execution of the upsert and the clean-up on a transition table is the functional delta |
| DailyUsage.Tables.Execute | migrations/versions/0031_inference_daily_usage.py:75-101 | Each statement with its trigger keeps the daily table exact |
| GroupedView.DeltaIsExact | migrations/versions/0031_inference_daily_usage.py:64-87 | For any grouping query: signed totals of the changed rows, upserted, with zero groups of touched keys removed, are the view of the rewritten table |
| GroupedView.Conserved | migrations/versions/0031_inference_daily_usage.py:39-50 | For any grouping query a metric summed over the groups is its sum over the rows |
| GroupedView.Dominated | migrations/versions/0031_inference_daily_usage.py:46-48 | A metric that is at most another in every row is at most it in every group |
| GroupedView.Grouped | migrations/versions/0031_inference_daily_usage.py:65-66 | One pass over signed rows computes the grouped totals |
| SearchOutbox.WriteKeepsPending | migrations/versions/0003_search_outbox.py:42-87 | Every single row change leaves each document current or covered by a pending event, fanouts half way through their pages included |
| SearchOutbox.StepKeepsInv | packages/core/src/search_index.py:164-224 | Every step of writers interleaved with the paging indexer, crashes included, keeps every document current or covered |
| SearchOutbox.CommitKeepsInv | packages/core/src/search_index.py:180-224 | Acknowledging a batch never uncovers a document: its destinations, its pages and the continued fanouts take over |
| SearchOutbox.RunKeepsInv | packages/core/src/search_index.py:164-224 | The covering invariant holds in every reachable state |
| SearchOutbox.StaleDocumentsAreCovered | migrations/versions/0003_search_outbox.py:42-90 | In every reachable state a document whose own row, links or linked rows differ from its last build is covered by a direct event or by a fanout whose cursor has not passed it |
| SearchOutbox.EmptyOutboxMeansCurrent | migrations/versions/0003_search_outbox.py:42-90 | With an empty outbox every document agrees with the database on all captured columns and links |
| SearchOutbox.InitialInv | migrations/versions/0003_search_outbox.py:88-90 | The initial backfill covers every existing row |
| SearchOutbox.UncapturedUpdateIsSilent | migrations/versions/0003_search_outbox.py:46-53 | An UPDATE of columns outside the captured list writes no event |
| UncapturedColumns.GoesStaleUnnoticedIff | packages/core/src/search_records.py:92-112 | An update of a visible article with an up-to-date document leaves that document behind with nothing pending exactly when no captured column changed and the shown title or content type did |
| UncapturedColumns.StaysStale | packages/core/src/search_records.py:245-271 | Such a document stays behind, uncovered, over every run up to a captured change or one of its own row |
| UncapturedColumns.RewrittenTitleStaysStale | packages/core/src/search_records.py:92-112 | A run from the initial state that publishes an approved article of an approved source and ends with an empty outbox and the old title in its document |
| SearchDrain.CommitLeavesLess | packages/core/src/search_index.py:164-224 | Acknowledging a batch leaves less: fanouts have advanced, or else articles or events are fewer, although articles and pages leave new events |
| SearchDrain.QuietOutboxEmpties | packages/core/src/search_index.py:164-224 | Once writers stop, the outbox is empty after finitely many batches, and then every document agrees with the database on all captured columns and links |
| SearchDrain.PageAdvances | packages/core/src/search_index.py:198-218 | A full page takes rows off what is ahead of its fanout, also when it ends between rows of one article |
| SearchOutbox.Outbox.Differs | migrations/versions/0003_search_outbox.py:47-51 | The FOREACH loop finds a changed captured column exactly when there is one |
| SearchOutbox.Outbox.ChangeArticle | migrations/versions/0003_search_outbox.py:54-62 | An article change appends its own event and one for each linked entity, and nothing when no captured column changed |
| SearchOutbox.Outbox.ChangeEntity | migrations/versions/0003_search_outbox.py:54-56 | A catalogue change appends one fanout event |
| SearchOutbox.RelinkKeepsPending | migrations/versions/0003_search_outbox.py:66-79 | One trigger call for an update that moves a link leaves every document current or covered, as its removal and its insertion would |
| SearchOutbox.Outbox.ChangeLink | migrations/versions/0003_search_outbox.py:66-79 | One trigger call with the old and the new row appends direct events for both ends of each, four when an update moves the link |
| MeasurementWindow.StepKeepsInv | loadtests/locustfile.py:132-213 | Every event of the controller or of a reader keeps phase, slots, samples and reader streams consistent |
| MeasurementWindow.RunKeepsInv | loadtests/locustfile.py:80-213 | The invariant holds in every state of every interleaving |
| MeasurementWindow.BarrierHolds | loadtests/locustfile.py:138-142 | Once the barrier is set every requested slot has been in it, and before the release no reader has a request outstanding |
| MeasurementWindow.MeasurementStartsFromParkedReaders | loadtests/locustfile.py:138-195 | The step into the measurement finds a requested reader parked exactly when it was not stopped before, and resets it and the statistics in the same step |
| MeasurementWindow.MeasurementCanStartEmpty | loadtests/locustfile.py:138-142 | A run whose only reader is stopped at the barrier: the measurement starts without a reader |
| MeasurementWindow.RetainedSamplesAreMeasured | loadtests/locustfile.py:180-197 | From then on every retained sample began after the release |
| MeasurementWindow.FinishedAfterFullWindow | loadtests/locustfile.py:195-213 | A run that is finished slept the whole measurement: one release, then only measuring states up to the end of the sleep |
| MeasurementWindow.PassingRunMeasuredItsWindow | loadtests/locustfile.py:236-256 | A run that passes the phase half of the gate measured its full window on samples begun inside it |
| MeasurementWindow.WarmupFailuresFailTheGate | loadtests/locustfile.py:184-185 | A failure before the release survives the statistics reset and fails the gate |
| MeasurementWindow.StepKeepsStreams | loadtests/locustfile.py:314-335 | The journeys since the last reset are the first draws of the journey stream, whatever the other two streams drew |
| MeasurementWindow.MeasuredJourneysAreRepeatable | loadtests/locustfile.py:305-335 | For equal seed and slot the measured journeys of any two runs are prefixes of one another |
| MeasurementWindow.WarmupFollowsBootstrap | loadtests/locustfile.py:132-169 | Warmup starts only when every requested reader exists and has finished its bootstrap |
| MeasurementWindow.Window.BeforeJourney | loadtests/locustfile.py:138-148 | Parks the reader while draining, otherwise lets it travel or stop |
| MeasurementWindow.Window.BeginMeasurement | loadtests/locustfile.py:182-183 | The loop over the readers resets the streams of every one of them |
| MeasurementWindow.Window.ParkedWaitOver | loadtests/locustfile.py:178-195 | Fails without the barrier; with it resets, stores the warm-up failures and opens the window in one step |
| IndexSwap.Database.EnsureIndex | migrations/versions/0033_article_lifecycle.py:18-30 | Keeps a valid index, rebuilds an invalid or missing one; touches no other |
| IndexSwap.Database.ReplaceAutomationIndex | migrations/versions/0033_article_lifecycle.py:33-51 | Wherever it is interrupted some valid index serves pending unpublished articles; a completed run leaves exactly one automation index, valid, under the final name, with the right predicate |
| IndexSwap.Database.Upgrade | migrations/versions/0033_article_lifecycle.py:54-66 | The same for the whole upgrade, and approved articles stay served once they were; thirteen catalog changes are enough to complete |
| IndexSwap.Database.Downgrade | migrations/versions/0033_article_lifecycle.py:69-77 | The same for the downgrade |
| IndexSwap.Database.Attempts | migrations/versions/0033_article_lifecycle.py:54-77 | Any sequence of interrupted upgrades and downgrades keeps pending articles served, and a completed last one leaves the catalog of its direction |
| Provisioning.Deployment.Reuse | infra/chimely/provision.py:164-165 | The first candidate key that is listed and authenticates, or none if no candidate is valid |
| Provisioning.Deployment.ProvisionAudience | infra/chimely/provision.py:145-184 | One audience: a key is issued only when no candidate is valid, and is in the state file before anything later can fail |
| Provisioning.Deployment.CollectKeys | infra/chimely/provision.py:134-184 | Issued keys are paid for by audiences that lacked one; an interruption leaves at most one unpaid |
| Provisioning.Deployment.SaveFiles | infra/chimely/provision.py:186-188 | Each consumer file is either untouched or replaced by one its consumer accepts |
| Provisioning.Deployment.Provision | infra/chimely/provision.py:107-189 | A ready run leaves no configured audience without a stored valid key, and files that all three roles accept; no run takes a key away |
| Provisioning.Deployment.Revoke | infra/chimely/provision.py:88-104 | After revoking a key, whatever the environment, at most as many more audiences lack one as use its slug |
| Provisioning.Deployment.Schedule | infra/chimely/provision.py:107-189 | Over any schedule of interrupted runs, revocations and changes of the environment, keys issued are at most the audiences configured at first plus interrupted runs, revoked audiences and changed slugs or keys; with only runs after a ready one none is issued; and each file is accepted under the environment of the last ready run or of a later run, or under the present one if none was changed since |
| Provisioning.AccountFor | infra/chimely/provision.py:164-172 | The accounting of one audience behind the bound |
| Provisioning.WorkerFileIsAccepted | infra/chimely/consumer.py:21-47 | The worker file of a completed run is accepted as it is: right scope, right configuration, a key for each configured audience |
| Provisioning.InboxFileIsAccepted | infra/chimely/consumer.py:21-47 | Likewise for the admin and user files with their own secret only |
| Provisioning.StartedConsumersAreConfigured | infra/chimely/consumer.py:50-62 | A consumer that runs with notifications has its own complete file and matching configuration; only the user role starts without one, with notifications off |
| DecisionCalls.StageNumbersRunInOrder | migrations/versions/0036_topic_decision_calls.py:69-70 | Within a stage, the missing stage included, later calls have larger numbers, from one |
| DecisionCalls.StageNumbersHaveNoGap | migrations/versions/0036_topic_decision_calls.py:69-70 | Every number up to that of a call belongs to an earlier call of its stage |
| DecisionCalls.AppendKeepsEarlierValues | migrations/versions/0036_topic_decision_calls.py:48-84 | The projection of a longer array extends the projection of a shorter one |
| DecisionCalls.SameRowsIfSameReadings | migrations/versions/0036_topic_decision_calls.py:48-84 | Two arrays project to the same rows exactly when their calls read the same one by one |
| DecisionCalls.SyncStores | migrations/versions/0036_topic_decision_calls.py:94-116 | Upserting only the differing rows and deleting the tail stores exactly the new projection and no other run's rows change |
| DecisionCalls.AppendWritesOnlyNewRows | migrations/versions/0036_topic_decision_calls.py:94-111 | After an append exactly the new ordinals are written |
| DecisionCalls.RespelledNumberGoesUnnoticed | migrations/versions/0036_topic_decision_calls.py:91-93 | Rewriting 1 as 1.0 is no change for the trigger although the projection differs: the stored rows then disagree |
| DecisionCalls.BackfillIsCurrent | migrations/versions/0036_topic_decision_calls.py:85-87 | The backfill stores the projection of every run |
| DecisionCalls.Decisions.Write | migrations/versions/0036_topic_decision_calls.py:94-116 | The writing part of the trigger stores the projection and writes exactly the ordinals that differed |
| DecisionCalls.Decisions.Insert | migrations/versions/0036_topic_decision_calls.py:88-122 | An inserted run is stored as its projection |
| DecisionCalls.Decisions.Update | migrations/versions/0036_topic_decision_calls.py:88-122 | After an update the table is current exactly when the arrays are distinguished by jsonb equality or their calls read the same |
| DecisionCalls.Decisions.Delete | migrations/versions/0036_topic_decision_calls.py:42-47 | Cascading deletes keep every remaining run current |
| MatchingTokens.ChunksAreTokens | migrations/versions/0024_partnerships.py:980-994 | Every token is one to 200 indexed characters |
| MatchingTokens.ChunksWithin | migrations/versions/0024_partnerships.py:980-994 | Text that stands between non-indexed characters keeps its tokens inside a longer text |
| MatchingTokens.CollectProductTokens | migrations/versions/0024_partnerships.py:996-1012 | The product loop collects the tokens of every technology, with the marker for texts the index cannot hold |
| MatchingTokens.TopicFilterIsComplete | migrations/versions/0024_partnerships.py:1075-1087 | A technology equal to a topic's name or alias under casefold always selects the product, in any alphabet and any length |
| MatchingTokens.OccurrenceIsIndexed | packages/core/src/partner_matching.py:101-102 | A whole-word occurrence ignoring case shares the term's tokens, through lookalike letters and runs over 200 characters |
| MatchingTokens.ArticleFilterIsComplete | packages/core/src/partner_matching.py:367-424 | The article and product candidate queries see every article that mentions a technology |
| PreparedTopics.AfterInvalidation | migrations/versions/0024_partnerships.py:1075-1097 | Affected products lose all edges and are queued; the others keep edges and queue |
| PreparedTopics.AffectedProductIsRequeued | migrations/versions/0024_partnerships.py:1092-1096 | An affected product has a topics job with a larger generation and no cursor; other jobs are untouched |
| PreparedTopics.ChangedTopicKeepsNoEdge | migrations/versions/0024_partnerships.py:1099-1142 | After a tracked topic change no product keeps an edge to it or to a topic related to it |
| PreparedTopics.UnaffectedByTopic | migrations/versions/0024_partnerships.py:1099-1142 | For a product that is not affected, nothing its edges are computed from differs |
| PreparedTopics.UnaffectedByRelation | migrations/versions/0024_partnerships.py:1144-1166 | The same for a relation change |
| PreparedTopics.StepKeepsInv | migrations/versions/0024_partnerships.py:1075-1214 | Every change of topics, relations or products and every job keeps each product's edges right for the current facts or queued |
| PreparedTopics.RunKeepsInv | packages/core/src/partner_matching.py:427-535 | The same in every state of every run, starting without products |
| PreparedTopics.QuietProductsAreComplete | packages/core/src/partner_matching.py:169-202 | Without a pending job a product has a full-score edge to exactly the active topics its grounded technologies name |
| PreparedTopics.QuietProductsAreRelated | packages/core/src/partner_matching.py:193-221 | Its other edges score 65 and lead to active, unnamed, not broad topics at the other end of a relation with a named one; to all of them when the relations fit the limit |
| PreparedTopics.Tables.ChangeTopic | migrations/versions/0024_partnerships.py:1099-1142 | The topic trigger with the row change, timestamps included |
| PreparedTopics.Tables.ChangeRelation | migrations/versions/0024_partnerships.py:1144-1166 | The relation trigger with the row change |
| PreparedTopics.Tables.ChangeProduct | migrations/versions/0024_partnerships.py:1052-1064 | The product trigger with the row change, and with what goes with a deleted product, keeps edges right or queued |
| PreparedTopics.Tables.DeleteTopic | migrations/versions/0024_partnerships.py:1099-1166 | A deleted topic takes its relations along trigger by trigger, and the invariant holds throughout |
| CatalogRevisions.ProjectionKeepsCount | migrations/versions/0016_catalog_snapshots.py:11-15 | A column list that contains the key projects a table onto as many rows |
| CatalogRevisions.UpdateCheckIsExact | migrations/versions/0016_catalog_snapshots.py:36-39 | For an UPDATE, new EXCEPT old is empty exactly when the projected table is unchanged |
| CatalogRevisions.WithoutTheKeyALossGoesUnnoticed | migrations/versions/0016_catalog_snapshots.py:11-15 | Without the key in the columns the check can miss a lost row |
| CatalogRevisions.SilentStatementsChangeNothing | migrations/search_visibility.py:14-24 | A statement that keeps the revision leaves the projected table as it was |
| CatalogRevisions.RefreshesAreNeeded | migrations/search_visibility.py:14-24 | A statement that changes the revision changed the projected table, except TRUNCATE of an empty one |
| CatalogRevisions.SameRevisionSameContents | migrations/search_visibility.py:25-26 | In every run two states with the same revision agree on the watched columns of every table under it |
| CatalogRevisions.RevisionsDoNotReturn | migrations/versions/0016_catalog_snapshots.py:41-43 | A revision that was left never comes back |
| CatalogRevisions.SnapshotHitsAreCurrent | packages/core/src/catalog_cache.py:67-137 | What was loaded between two reads of one revision is right for every state with that revision, as far as it reads watched columns |
| CatalogRevisions.UnwatchedColumnsGoStale | migrations/versions/0022_catalog_ranking_revision.py:13-33 | An unwatched column goes stale under an unchanged revision, which is why widening must hand out a new one |
| CatalogRevisions.Catalog.Refresh | migrations/versions/0016_catalog_snapshots.py:28-44 | The trigger hands out a new revision exactly in the cases of the specification |
| CatalogRevisions.Catalog.Execute | migrations/versions/0016_catalog_snapshots.py:26-55 | A statement with its trigger is one transition |
| CatalogRevisions.Catalog.ReplaceColumns | migrations/versions/0022_catalog_ranking_revision.py:13-33 | Replacing the columns hands out a revision that was never used, which by RevisionsDoNotReturn no stored snapshot bears |
| NormalizeTags.PassKeepsIndex | scripts/normalize_tags.py:66-90 | Slugs stay unique and in agreement with the index over every turn |
| NormalizeTags.RenameKeepsLabels | scripts/normalize_tags.py:42-47 | A rename drops no label and adds only the new name and slug |
| NormalizeTags.MergeKeepsLabels | scripts/normalize_tags.py:42-47 | A merge hands all labels to the target and invents none |
| NormalizeTags.MergedLinksAt | scripts/normalize_tags.py:70-85 | Link by link what the insert, its conflict rule and the delete leave |
| NormalizeTags.MergeMovesLinks | scripts/normalize_tags.py:70-85 | Each article keeps a link to the surviving tag exactly where a merged tag had one, with the highest-ranked origin |
| NormalizeTags.IdentitiesAfterMerge | scripts/normalize_tags.py:65-69 | Every original tag keeps a surviving one with all its labels and its topic decision |
| NormalizeTags.UndisturbedIsEnough | scripts/normalize_tags.py:21-32 | A condition on the tags alone under which no tag is sent to one that was merged before |
| NormalizeTags.MergedTagsLingerInTheIndex | scripts/normalize_tags.py:32-86 | Otherwise the index sends a later tag to a tag that no longer exists |
| NormalizeTags.TargetIsGoneIff | scripts/normalize_tags.py:32-86 | In any turn the target is gone exactly when the new slug is the old slug of a tag merged before |
| TagForesight.TargetsAliveIff | scripts/normalize_tags.py:15-93 | Read off the slugs, new slugs and order before the call: a pass without conflicts finds all its targets exactly when no tag is to be called what an earlier merged tag was called |
| TagForesight.MisledPass | scripts/normalize_tags.py:21-86 | The tags foo, #foo and one with the slug sharp_foo: the last is sent to the merged #foo |
| TagForesight.AppliedAsPreviewedIff | scripts/normalize_tags.py:15-93 | Without conflicts in the preview and the pass, applying reports the previewed changes exactly when no new slug is freed or taken, and no holder of one renamed, by an earlier turn; all read off the tags before the call |
| TagForesight.PreviewMissesAMerge | scripts/normalize_tags.py:15-93 | Tags foo and #foo, neither with the slug foo: the preview reports two renames to it, applying merges the second into the first |
| NormalizeTags.WhatAPassLeaves | scripts/normalize_tags.py:15-93 | After a pass slugs are unique, each surviving tag without conflict bears its new name and slug, every absorbed label is found on the surviving tag |
| NormalizeTags.Session.Decide | scripts/normalize_tags.py:22-51 | The branches of one turn reach the verdict of the specification |
| NormalizeTags.Session.Turn | scripts/normalize_tags.py:22-91 | One turn of the loop is one pass of the specification |
| NormalizeTags.Session.Preview | scripts/normalize_tags.py:15-63 | The preview judges every tag by the tags and the index before the pass, reports those changes and conflicts, and changes nothing |
| NormalizeTags.Session.Normalize | scripts/normalize_tags.py:15-93 | The whole loop keeps index, identities and links and reports the changes it makes, up to a tag that is sent to one that is gone, and comes to the end exactly when there is none |
| Slugs.BaseIsSlug | migrations/versions/0004_source_slugs.py:22-24 | Whatever the name, the base is a well-formed slug of at most 170 characters |
| Slugs.SourceBaseIsAllowed | migrations/versions/0004_source_slugs.py:22-27 | No name gives a reserved base |
| Slugs.CandidateIsAllowed | migrations/versions/0004_source_slugs.py:41-47 | A candidate meets the table's constraint exactly unless a twelve-digit number completes a UUID |
| Slugs.TwelveDigitsCompleteUuid | migrations/versions/0004_source_slugs.py:41-47 | A name that reads like a UUID without its last group gives candidates the constraint rejects |
| Slugs.CandidatesDiffer | migrations/versions/0004_source_slugs.py:28-32 | Candidates with different numbers differ |
| Slugs.TakenCandidatesCount | migrations/versions/0004_source_slugs.py:28-32 | With n candidates taken there are at least n slugs, so the loop ends |
| Slugs.NewSourceSlug | migrations/versions/0004_source_slugs.py:16-34 | The loop returns the first free candidate within the number of slugs plus one, allowed below ten to the eleventh minus one slugs |
| Slugs.RunKeepsSlugsUnique | migrations/versions/0004_source_slugs.py:48-60 | Slugs are unique and set in every state of every run of inserts, updates and deletes |
| Slugs.SlugsAreImmutable | migrations/versions/0004_source_slugs.py:53-55 | While a source exists its slug does not change |
| Slugs.RunKeepsSlugsAllowed | migrations/versions/0004_source_slugs.py:41-47 | With fewer sources than ten to the eleventh minus one every slug meets the constraint |
| Slugs.SourceTable.Backfill | migrations/versions/0004_source_slugs.py:35-40 | The ordered backfill gives each source the first slug left free by those before it |
| Slugs.SourceTable.Insert | migrations/versions/0004_source_slugs.py:48-52 | An insert assigns the allocated slug |
| Slugs.SourceTable.Update | migrations/versions/0004_source_slugs.py:53-57 | An update that changes the slug is rejected, any other goes through |
| Slugs.ArticleSlugsAreUnique | migrations/versions/0001_initial.py:2000-2013 | Article slugs with different sequence numbers differ, whatever the titles |
| Slugs.ArticleSlugIsSlug | migrations/versions/0001_initial.py:2000-2013 | An article slug is well formed and fits its column |
| ReleaseNumbers.TextParses | scripts/version.py:70-79 | A release number reads back from its text |
| ReleaseNumbers.ValidTextIsCanonical | scripts/version.py:70-79 | A valid text is the only way to write its release |
| ReleaseNumbers.BumpsIncrease | scripts/version.py:156-162 | Every bump is a valid release that passes the strict-increase guard; a patch bump is the very next release |
| VersionLiteral.SectionStartIsLocal | scripts/version.py:165-171 | The [project] section is found from the text up to it |
| VersionLiteral.OnlyMatchIsFoundAgain | scripts/version.py:73 | With another value in it the one match is still the one match |
| VersionLiteral.ValueIsFoundAgain | scripts/version.py:172-176 | The value of a section body can be replaced and is found again in the same place |
| VersionLiteral.ReplacedReadsBack | scripts/version.py:165-177 | The replaced manifest declares the new version, and replacing it by the old one gives the old manifest back |
| VersionBump.RollbackRestores | scripts/version.py:228-243 | Whatever the tools did, the rollback returns the lock file and the whole generated tree |
| VersionBump.LastEditDecides | scripts/version.py:210-227 | What becomes of the last outside edit of a manifest, made before any step of the bump or of the rollback |
| VersionBump.OutsideEditSurvivesIff | scripts/version.py:210-227 | It survives a failed bump exactly when it comes after the bump's own write of that manifest, or that write never happens, and differs from that write, or when the rollback is past it |
| VersionBump.EarlyEditIsLost | scripts/version.py:184-214 | An edit between the reading and the writing of a manifest is overwritten, and the rollback brings back the text from before it |
| VersionBump.UntouchedIsRestored | scripts/version.py:223-227 | A manifest nobody else wrote, and whose write was not torn, is restored |
| VersionBump.TornWriteStays | scripts/version.py:213-227 | A torn write is undone exactly when it left the old or the new text |
| VersionBump.GeneratingDisturbs | scripts/version.py:219-221 | What generators may have done stays within what the rollback undoes |
| VersionBump.Workspace.WriteManifests | scripts/version.py:210-214 | The loop writes the manifests in order; a failing write can tear only its own file |
| VersionBump.Workspace.RestoreGenerated | scripts/version.py:229-243 | Added client files and marked routes go, every snapshotted file comes back |
| VersionBump.Workspace.Rollback | scripts/version.py:223-243 | The except branch, with others writing manifests in between, returns everything but the manifests and leaves each manifest as foreseen |
| VersionBump.Workspace.SetVersion | scripts/version.py:180-245 | A bump that succeeds leaves every manifest that nobody else edited with its new text; a failed one without outside edits or torn writes changes nothing, and with outside edits before any of its steps leaves every other file as it was and keeps an edit under the exact condition |
| VersionBump.BumpedManifestDeclaresTarget | scripts/version.py:185-188 | A manifest bumped to a valid release declares it, and the old manifest can be recovered from it |
| BenchmarkRunner.Destination.Attempt | scripts/model_benchmark.py:438-475 | The marker goes to disk before the call and a folder with a marker is never called again; a crash leaves at most a marker without its call |
| BenchmarkRunner.Destination.Run | scripts/model_benchmark.py:398-475 | Over whatever happened before in the directory, no folder is called twice, a finished run leaves a marker in every planned folder, and only an interruption can lose a call, at most one |
| BenchmarkRunner.Destination.Sessions | scripts/model_benchmark.py:398-475 | Over any sequence of runs and plans, resumed and interrupted anywhere, calls never exceed the planned count nor the limit, and lost calls never the interrupted runs |
| BenchmarkRunner.PlainKeysDiffer | scripts/model_benchmark.py:439 | With ids without double or outer dashes no two pieces of work share a folder |
| BenchmarkRunner.KeysAgreeIff | scripts/model_benchmark.py:439 | Two pieces of work share a folder exactly when their repetitions agree and their ids join alike |
| BenchmarkRunner.JoinsAgreeIff | scripts/model_benchmark.py:439 | Ids join alike exactly when the longer case id goes on as the rest of the other side does |
| BenchmarkRunner.OwnFoldersIff | scripts/model_benchmark.py:434-439 | The planned work has a folder each exactly when no two pairs of a case and a variant join alike |
| BenchmarkRunner.DashedPlanCollides | scripts/model_benchmark.py:439 | The cases a- and a with the variants b and -b: the id pattern allows them, and two pieces of work share a folder |
| BenchmarkRunner.OnlyOneIsCalled | scripts/model_benchmark.py:438-446 | Of work that shares a folder only one piece is ever called |
| BenchmarkRunner.AllWorkIsCalledIff | scripts/model_benchmark.py:434-475 | When every folder was called, as many calls were made as planned exactly when no ids join alike |
| SchemaClosure.Close | scripts/export_reader_catalog_openapi.py:88-103 | The worklist ends on every graph with exactly the reachable names, unless a reachable schema is missing or a reference is no text |
| SchemaClosure.Turn | scripts/export_reader_catalog_openapi.py:91-103 | One turn keeps the invariant and shrinks the unused names or the stack |
| SchemaClosure.EmptyStackIsExact | scripts/export_reader_catalog_openapi.py:90-103 | With an empty stack the names found are the reachable ones |
| SchemaClosure.ClosedHoldsReachable | scripts/export_reader_catalog_openapi.py:88-103 | A set closed under references holds everything reachable |
| SchemaClosure.NewNameKeepsInv | scripts/export_reader_catalog_openapi.py:93-99 | A new name is reachable and its schema goes on the stack |
| EnvFile.WriteEnv | scripts/compose_dev.py:88-111 | The loops write the rewriting of the file, or refuse a value that is not one line |
| EnvFile.OutputIsRight | scripts/compose_dev.py:93-102 | Each named setting has one line, the new one, and all other lines keep their order |
| EnvFile.SettledByPosition | scripts/compose_dev.py:93-102 | The same read by position: two lines of a named setting are one line |
| EnvFile.OutputIsIdempotent | scripts/compose_dev.py:93-102 | Rewriting the rewritten lines changes nothing |
| EnvFile.LinesReadBack | scripts/compose_dev.py:91 | Written lines are read back as their pieces one after the other; a line without a line end is its own piece |
| EnvFile.RewriteIsIdempotentIff | scripts/compose_dev.py:88-111 | A second run leaves every file byte for byte exactly when all lines a setting is read back as name that setting |
| EnvFile.RewriteIsIdempotent | scripts/compose_dev.py:88-111 | With values free of U+0085, U+2028 and U+2029 a second run leaves the file byte for byte |
| EnvFile.EnvLineIsOneLine | scripts/compose_dev.py:114-118 | A setting is written on one line exactly when its value has none of the three |
| EnvFile.SeparatorsPileUp | scripts/compose_dev.py:91-103 | A separator in a value makes the next run add a line |
| FixtureKeys.LikesAreDistinct | scripts/profile_reader_views.py:387-404 | At every accepted scale no like is generated twice and the fifth reader likes nothing |
| FixtureKeys.TopicKeysDistinctIff | scripts/profile_reader_views.py:338-353 | Article-topic keys are distinct exactly when the scale gives neither 263 nor 294 topics |
| FixtureKeys.TopicKeysCollide | scripts/profile_reader_views.py:338-353 | At those scales two links of the first article are the same |
| FixtureKeys.CollidingScaleExists | scripts/profile_reader_views.py:73-88 | 0.0105 is such a scale |
| FixtureKeys.TagKeysAreDistinct | scripts/profile_reader_views.py:338-353 | Article-tag keys are distinct at every accepted scale |
| FixtureKeys.RepeatedKey | scripts/profile_reader_views.py:343-346 | A key repeats only when the stride takes some number of rounds to the modulus |
| FixtureKeys.FollowsAreComplete | scripts/profile_reader_views.py:372-385 | The filtered loop yields the requested number of follows, those of readers 2 to the last |
| FixtureKeys.FollowsAreDistinct | scripts/profile_reader_views.py:372-385 | Follows name existing readers and targets and never repeat |
| FixtureKeys.FollowsPerReader | scripts/profile_reader_views.py:369-385 | Reader 2 has five follows and every later reader a hundred |
| FixtureKeys.SeedRows | scripts/scale_fixture.py:230-271 | The chunked loop inserts the first requested numbers that pass the filter, or fails for want of them |

## Left out

- PostgreSQL itself: statements are atomic steps, locks and isolation levels are not modelled, and a uuid is a number that does not repeat.
- gevent, Locust and HTTP: an event is what one greenlet does between two yield points; response times are the choice of the next event.
- The JSON phase and report files of the load test, latency thresholds and the rest of `quality_gate`: presentation and short comparisons.
- SearchOutbox.EmptyOutboxMeansCurrent: the text of documents, Typesense and a still running import of a crashed indexer are not modelled.
- `sources.slug` in search documents: it never changes after the migration that adds it, so it is not a captured column of the model.
- Provisioning.Deployment.Provision: the files hold texts only; file modes, the provisioning lock and the choice of key prefixes by the server are not modelled.
- `_admit_locks` of migration 0036: it only waits for locks.
- PreparedTopics.QuietProductsAreRelated: with more than 200 relations the edges are what some choice of 200 gives, because the query has a limit and no order.
- Article matching scores and the article half of the job queue: pure arithmetic on sets of words, no invalidation.
- NormalizeTags.Session.Normalize: stops where the code goes on with a deleted row, which may be reported as a conflict, may be refused by the database or may drop the labels of the tag; `TagForesight.TargetsAliveIff` says when it comes to that.
- FixtureKeys.TopicKeysDistinctIff: row counts are ceilings of real products; the rounding of floating-point scales is not modelled, and rows of a chunk are taken in series order.
- The `watch` loop of `scripts/compose_dev.py`: a debounce over clock readings that would only add easy members.
- `cost` of the benchmark runner, prices, reports and grading: linear formulas and presentation.
- Unicode normalization, lower case of non-ASCII text, regular-expression engines and hashes: parameters with the facts the proofs need, or inputs that are already normalized.
- `check` of `scripts/version.py` and the JSON manifests: the check's verdict is an input, JSON manifests are edits like the others.
