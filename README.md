# Bill enrichment pipeline, modelled in Dafny

This project models the core of a pipeline that turns a parliamentary bill into
the JSON document a civic web app displays. It also proves properties of that model.
The pipeline's scripts run one after another over a single bill file:

- **Stage 2** (`2_docling_to_json.py`) groups Docling's layout items into
  provisions. It writes the first bill JSON, with one section per provision header.
- **Stages 3, 4 and 6** walk the sections and add to each one:
  - a `category` (provision, preamble or metadata);
  - a plain-language `summary` of each provision;
  - an `impact`, which holds one level per topic.

  Stage 3 writes the file after every section it classifies. Stages 4 and 6
  write it after every tenth section and once at the end.
- **Stages 5, 7 and 8** add bill-level results:
  - the `executiveSummary`;
  - per-topic `impactAnalyses`;
  - `keyConcerns`, one for each provision rated severe- or high-negative.
- **Stage 9** adds `metadata`: the title taken from the file name, a slug, the
  PDF path and section statistics.
- **Stage 10** turns the finished document into the web app's bill record.

Each script is one Dafny module, named after its script: `DoclingToJson`,
`Categorize`, `Summarize`, `ExecSummary`, `Assess`, `ImpactAnalysis`,
`KeyConcerns`, `EnrichMetadata` and `TransformForWeb`. Two modules model what
the scripts share:

- `Shared` covers `shared.py`: `slugify`, the four topics, the impact scale and
  the severities.
- `Bill` covers the bill document.

The document a script loads is a `Bill.Document` object. Its fields are the
JSON keys the scripts update in place. A ghost `log` records every state the
file has held, so the model can state:
- how many writes a run makes;
- that memory and file agree after each write (`Synced`);
- that at most `k` sections are unsaved (`UnsavedAtMost`).

Every call to a language model is a function parameter that returns a `Result`.
A `Failure` is the exception that stops the script.

The section loops of stages 3, 4 and 6 are methods. Each is proved against a
specification function, `Loop`, which folds one `Step` per section. What the
stage promises is then proved about `Loop` as lemmas:
- which sections change, and how;
- that nothing else changes;
- what the counters count;
- that an exception stops the loop;
- that a re-run is a no-op.

Stage 8's two sorts are Python's stable `list.sort`. They are modelled once, in
`StableSort`, as a stable insertion sort.

Helper modules:
- `Wrappers` holds `Option` and `Result`.
- `Text` covers the character classes and `str` operations the scripts use.
- `Seqs` holds `Map` over a sequence.

## Model

| member | source | states |
|---|---|---|
| Shared.Slugify | pipeline/scripts/shared.py:9-22 | every result is a slug: only `a-z`, `0-9` and `-`, no two hyphens in a row, and no hyphen at either end |
| Shared.DropDisallowed | pipeline/scripts/shared.py:19 | every character that survives the first substitution is a lower-case letter, a digit, whitespace or a hyphen |
| Shared.HyphenateSpaces | pipeline/scripts/shared.py:20 | after whitespace runs become hyphens, only slug characters remain and the text is no longer than the input |
| Shared.SquashHyphens | pipeline/scripts/shared.py:21 | no two hyphens in a row remain; the result is empty exactly when the input is; it starts with a hyphen exactly when the input does |
| Shared.SquashKeepsNonHyphen | pipeline/scripts/shared.py:21 | a character other than a hyphen passes through unchanged |
| Shared.HyphenRunIsOneHyphen | pipeline/scripts/shared.py:21 | a maximal run of hyphens becomes exactly one hyphen |
| Shared.StripHyphens | pipeline/scripts/shared.py:22 | the result neither starts nor ends with a hyphen |
| Shared.StripHyphensRemovesOnlyHyphens | pipeline/scripts/shared.py:22 | only hyphens are removed: every character before or after the kept piece is a hyphen |
| Shared.DeletedNotReplaced | pipeline/scripts/shared.py:18-22 | a character that is not allowed after lowering is deleted, not replaced: taking it out of the input gives the same slug |
| Shared.SpaceRunIsOneHyphen | pipeline/scripts/shared.py:20 | a non-empty run of whitespace before a non-space becomes exactly one hyphen |
| Shared.SlugIsFixedPoint | pipeline/scripts/shared.py:9-22 | a text that is already a slug is its own slug |
| Shared.SlugifyIdempotent | pipeline/scripts/shared.py:9-22 | `slugify(slugify(x)) == slugify(x)` for every text |
| Shared.SlugKeepsLeadingWord | pipeline/scripts/shared.py:9-22 | a leading run of lower-case letters and digits, such as a bill number, survives as the start of the slug |
| Shared.Topic.Index | pipeline/scripts/shared.py:25-34 | each topic's position in the enumeration, in declaration order |
| Shared.TopicsAreTheFourDistinctNames | pipeline/scripts/shared.py:25-34 | `TOPICS` holds the four distinct topic names in declaration order, and every topic's name is in it |
| Shared.NamesDistinct | pipeline/scripts/shared.py:27-30 | different topics have different names |
| Shared.NameListed | pipeline/scripts/shared.py:34 | a topic's name sits in `TOPICS` at the topic's index |
| Shared.IndexOfListed | pipeline/scripts/shared.py:34 | the topic at position `j` has index `j` |
| Shared.ImpactLevelScale | pipeline/scripts/shared.py:37-47 | nine distinct levels on a scale from -4 to 4, with neutral the only level at 0 and none of them named `none` |
| Bill.ProvisionTest | pipeline/scripts/4_summarize_sections.py:102-106 | the test `category.get('type', default) == 'provision'` holds exactly for provisions, for any default other than `provision` |
| Bill.Provisions | pipeline/scripts/4_summarize_sections.py:91 | the provisions list holds only provisions and is no longer than the sections |
| Bill.ProvisionsMembers | pipeline/scripts/4_summarize_sections.py:91 | a section is in the provisions list exactly when it is a section and a provision; the list is empty exactly when no section is a provision |
| Bill.ProvisionsAppend | pipeline/scripts/4_summarize_sections.py:91 | the filter keeps order: the provisions of a concatenation are the provisions of each part, in turn |
| Bill.ProvisionsOfOne | pipeline/scripts/4_summarize_sections.py:91 | a single section is kept exactly when it is a provision |
| Bill.LevelOf | pipeline/scripts/8_generate_key_concerns.py:191 | `levels.get(topic, 'none')` is either `none` or a level stored under that topic |
| Bill.LevelOfDistinctKeys | pipeline/scripts/8_generate_key_concerns.py:191 | with distinct keys, a lookup reads back the stored level |
| Bill.BillContext | pipeline/scripts/6_assess_impact.py:177-181 | the executive summary when it is present and non-empty, otherwise the placeholder; never empty |
| Bill.Document.Load | pipeline/scripts/3_categorize_sections.py:93-95 | after `json.load`, memory equals the file |
| Bill.Document.Save | pipeline/scripts/3_categorize_sections.py:131-133 | `json.dump` writes the whole document, one write, after which memory and file agree |
| Bill.SyncedNothingUnsaved | pipeline/scripts/4_summarize_sections.py:81-82 | right after a load or a write, nothing is unsaved |
| Categorize.ContentPreview | pipeline/scripts/3_categorize_sections.py:71 | the first 400 characters, or the whole text when it is shorter; empty for empty text |
| Categorize.Counts.Bump | pipeline/scripts/3_categorize_sections.py:121-122 | counting one category raises the total by one |
| Categorize.Loop | pipeline/scripts/3_categorize_sections.py:109-125 | the loop keeps the number of sections, and an exception is recorded at a section already visited |
| Categorize.Step | pipeline/scripts/3_categorize_sections.py:109-125 | one iteration keeps the number of sections, does nothing once an exception was raised, and raises only on its own section |
| Categorize.Visit | pipeline/scripts/3_categorize_sections.py:109-133 | one iteration does what `Step` says to the sections and the counts, and writes once per classified section unless in a dry run, after which the file equals memory |
| Categorize.CategorizeSections | pipeline/scripts/3_categorize_sections.py:82-133 | the run leaves the sections `Loop` describes, reports no sections, completion with the counts, or the exception, and makes exactly one write per classified section (none in a dry run) |
| Categorize.CategorizeAll | pipeline/scripts/3_categorize_sections.py:106-133 | the section loop ends in the state `Loop` describes for all sections: the sections, the counts and the exception; the log grows by one write per classified section (none in a dry run) |
| Categorize.LoopStops | pipeline/scripts/3_categorize_sections.py:118 | an exception ends the run: later iterations change nothing |
| Categorize.LoopSections | pipeline/scripts/3_categorize_sections.py:109-125 | sections before the stopping point carry the category the classifier gave when they needed one and are unchanged otherwise; the section it stopped at needed a category and the classifier raised on it; later sections are untouched |
| Categorize.LoopAttempted | pipeline/scripts/3_categorize_sections.py:110-118 | the classifier is called exactly on the sections needing a category, in order, up to and including the one that raised |
| Categorize.NeedingIndicesExact | pipeline/scripts/3_categorize_sections.py:110-112 | the indexes sent are exactly those below the bound whose section lacks a category (or all, with `force`) |
| Categorize.LoopCounts | pipeline/scripts/3_categorize_sections.py:107-122 | the three category counts sum to the number of sections classified |
| Categorize.CategorizedBeforeReach | pipeline/scripts/3_categorize_sections.py:109-125 | every section before the stopping point has a category |
| Categorize.NothingToDoWhenCategorized | pipeline/scripts/3_categorize_sections.py:110-112 | without `force`, when every section has a category, there are no calls, no changes and zero counts |
| Categorize.RerunSkipsDoneSections | pipeline/scripts/3_categorize_sections.py:110-133 | re-running without `force` after a finished run is a no-op; after a run that raised, the re-run sends no section before the one that raised |
| Categorize.OnlyCategoriesChange | pipeline/scripts/3_categorize_sections.py:125 | the run changes only `category`: every other field and the section order stay as they were |
| Summarize.Loop | pipeline/scripts/4_summarize_sections.py:101-132 | the loop keeps the number of sections, and an exception is recorded at a section already visited |
| Summarize.Step | pipeline/scripts/4_summarize_sections.py:101-120 | one iteration keeps the sections' number, does nothing after an exception, and raises only on its own section |
| Summarize.Visit | pipeline/scripts/4_summarize_sections.py:101-132 | one iteration does what `Step` says, writes when the count reaches a multiple of 10 (not in a dry run), and keeps unsaved work below `count % 10` sections |
| Summarize.SummarizeAll | pipeline/scripts/4_summarize_sections.py:98-132 | the loop leaves what `Loop` describes, makes `count / 10` batch writes, and leaves at most `count % 10` sections unsaved |
| Summarize.SummarizeSections | pipeline/scripts/4_summarize_sections.py:69-137 | the run: no sections, completion with the count, or the exception; batch writes plus one final write when the loop finished; at most `count % 10` sections unsaved; file equals memory after a finished run |
| Summarize.StepExplains | pipeline/scripts/4_summarize_sections.py:101-120 | each iteration keeps `Explains`: summaries up to the stopping point, the raising section, untouched sections after it |
| Summarize.LoopSections | pipeline/scripts/4_summarize_sections.py:101-120 | provisions before the stopping point that needed a summary carry the summarizer's text; nothing else changes; the section it stopped at is one the summarizer raised on |
| Summarize.LoopStops | pipeline/scripts/4_summarize_sections.py:116 | an exception ends the run: later iterations change nothing |
| Summarize.LoopCount | pipeline/scripts/4_summarize_sections.py:98-120 | `summarized_count` is the number of sections summarized before the stopping point |
| Summarize.CountNeedingAtMostProvisions | pipeline/scripts/4_summarize_sections.py:91-110 | no more sections need a summary than there are provisions |
| Summarize.SummarizedCountAtMostProvisions | pipeline/scripts/4_summarize_sections.py:91-120 | `summarized_count <= len(provisions)` |
| Summarize.LoopKeeps | pipeline/scripts/4_summarize_sections.py:104-110 | non-provisions, and provisions already summarized when `force` is off, come out unchanged |
| Summarize.ProvisionsSummarized | pipeline/scripts/4_summarize_sections.py:101-120 | after a run that did not raise, every provision has a summary |
| Summarize.OnlySummariesChange | pipeline/scripts/4_summarize_sections.py:119 | the run changes only `summary`: every other field and the section order stay as they were |
| Summarize.NothingToDoWhenSummarized | pipeline/scripts/4_summarize_sections.py:108-110 | without `force`, when every provision has a summary, there are no calls and no changes |
| Summarize.RerunIsNoOp | pipeline/scripts/4_summarize_sections.py:108-110 | re-running without `force` on what a finished run left is a no-op |
| Assess.LevelPairsAt | pipeline/scripts/6_assess_impact.py:145-150 | the levels list has one pair per topic, naming the topic and the assessor's level for it |
| Assess.ImpactKeys | pipeline/scripts/6_assess_impact.py:144-153 | the written impact has exactly four levels, keyed by `TOPICS` in order, each the assessor's level for that topic |
| Assess.LevelsReadBack | pipeline/scripts/6_assess_impact.py:144-150 | looking a topic up in the written impact gives the assessor's level, never `none` |
| Assess.Loop | pipeline/scripts/6_assess_impact.py:194-227 | the loop keeps the number of sections, and an exception is recorded at a section already visited |
| Assess.Step | pipeline/scripts/6_assess_impact.py:194-213 | one iteration keeps the sections' number, does nothing after an exception, and raises only on its own section |
| Assess.Visit | pipeline/scripts/6_assess_impact.py:194-227 | one iteration does what `Step` says, writes when the count reaches a multiple of 10 (not in a dry run), and keeps unsaved work below `count % 10` sections |
| Assess.AssessAll | pipeline/scripts/6_assess_impact.py:191-227 | the loop leaves what `Loop` describes, makes `count / 10` batch writes, and leaves at most `count % 10` sections unsaved |
| Assess.AssessSections | pipeline/scripts/6_assess_impact.py:156-232 | the run uses the executive summary or the placeholder as context; it reports no sections, completion with the count, or the exception; it writes batches plus one final write when finished; it changes only the sections |
| Assess.StepExplains | pipeline/scripts/6_assess_impact.py:194-213 | each iteration keeps `Explains`: impacts up to the stopping point, the raising section, untouched sections after it |
| Assess.LoopSections | pipeline/scripts/6_assess_impact.py:194-213 | provisions before the stopping point that needed an impact carry the assessor's result; nothing else changes; the section it stopped at is one the assessor raised on |
| Assess.LoopStops | pipeline/scripts/6_assess_impact.py:209 | an exception ends the run: later iterations change nothing |
| Assess.LoopCount | pipeline/scripts/6_assess_impact.py:191-213 | `assessed_count` is the number of sections assessed before the stopping point |
| Assess.CountNeedingAtMostProvisions | pipeline/scripts/6_assess_impact.py:184-203 | no more sections need an impact than there are provisions |
| Assess.AssessedCountAtMostProvisions | pipeline/scripts/6_assess_impact.py:184-213 | `assessed_count <= len(provisions)` |
| Assess.LoopKeeps | pipeline/scripts/6_assess_impact.py:197-203 | non-provisions, and provisions already assessed when `force` is off, come out unchanged |
| Assess.ProvisionsAssessed | pipeline/scripts/6_assess_impact.py:194-213 | after a run that did not raise, every provision has an impact, and each newly written impact has the four topics in order |
| Assess.OnlyImpactsChange | pipeline/scripts/6_assess_impact.py:212 | the run changes only `impact`: every other field and the section order stay as they were |
| Assess.NothingToDoWhenAssessed | pipeline/scripts/6_assess_impact.py:201-203 | without `force`, when every provision has an impact, there are no calls and no changes |
| Assess.RerunIsNoOp | pipeline/scripts/6_assess_impact.py:201-203 | re-running without `force` on what a finished run left is a no-op, whatever the second run's context |
| ExecSummary.PreambleContent | pipeline/scripts/5_generate_executive_summary.py:83 | the first 500 characters of the raw text, or all of it when it is shorter |
| ExecSummary.IncludedKinds | pipeline/scripts/5_generate_executive_summary.py:75-97 | a section is handed to the generator exactly when it is a preamble, or a provision with a summary; its entry kind matches |
| ExecSummary.RelevantAt | pipeline/scripts/5_generate_executive_summary.py:75-97 | the entries keep section order: an included section's entry comes right after those of the sections included before it |
| ExecSummary.RelevantLength | pipeline/scripts/5_generate_executive_summary.py:75-97 | one entry per included section |
| ExecSummary.GatherRelevant | pipeline/scripts/5_generate_executive_summary.py:72-97 | the loop builds exactly the list of entries of the included sections |
| ExecSummary.GenerateExecutiveSummary | pipeline/scripts/5_generate_executive_summary.py:109-176 | skips an existing summary unless `force`; it stops on no sections or no provisions, raises with the generator, or writes the summary exactly once (not in a dry run); nothing else changes |
| ImpactAnalysis.BandsDisjoint | pipeline/scripts/7_generate_impact_analysis.py:147-151 | no level is both in the severe band and in the high band |
| ImpactAnalysis.CandidatesAt | pipeline/scripts/7_generate_impact_analysis.py:126-144 | a topic's candidate list has one entry per provision significant for it, in section order |
| ImpactAnalysis.CandidatesLength | pipeline/scripts/7_generate_impact_analysis.py:138-144 | there is one candidate per provision rated severe or high for the topic, and every candidate has a severe or high level |
| ImpactAnalysis.BandsSplitCandidates | pipeline/scripts/7_generate_impact_analysis.py:138-151 | the severe ids and the high ids split the candidates: the sizes add up, and an id is in one of them exactly when it is a candidate's |
| ImpactAnalysis.CollectTopic | pipeline/scripts/7_generate_impact_analysis.py:135-151 | one topic's three lists grow by this section's entries; other topics are untouched |
| ImpactAnalysis.CollectSection | pipeline/scripts/7_generate_impact_analysis.py:126-151 | each topic's lists grow by one section |
| ImpactAnalysis.CollectByTopic | pipeline/scripts/7_generate_impact_analysis.py:122-151 | the three dicts hold, for each topic, the candidates, the severe ids and the high ids of all sections |
| ImpactAnalysis.AnalysesShape | pipeline/scripts/7_generate_impact_analysis.py:154-178 | `impact_analyses` is keyed by the topics that have candidates, each entry with the candidate count and the severe ids if any, else the high ids |
| ImpactAnalysis.AnalysesAnswers | pipeline/scripts/7_generate_impact_analysis.py:156-178 | each entry's analysis is the analyser's answer for that topic, given the bill context, the topic's name, the bill title and the topic's candidates |
| ImpactAnalysis.NoAnalysesWhenNothingSignificant | pipeline/scripts/7_generate_impact_analysis.py:156-186 | the result is empty exactly when no topic has a candidate |
| ImpactAnalysis.LoopStopsOnFailure | pipeline/scripts/7_generate_impact_analysis.py:166 | an exception from the analyser ends the topic loop |
| ImpactAnalysis.AnalyseTopics | pipeline/scripts/7_generate_impact_analysis.py:154-181 | the topic loop computes the analyses (or the exception) |
| ImpactAnalysis.GenerateImpactAnalysis | pipeline/scripts/7_generate_impact_analysis.py:83-213 | skips existing analyses unless `force`; it stops on no sections or no topics, raises with the analyser, or writes once (not in a dry run); nothing else changes |
| KeyConcerns.FirstRated | pipeline/scripts/8_generate_key_concerns.py:190-195 | the first topic, in `TOPICS` order, rated at the given level, or none when no topic is |
| KeyConcerns.FindImpacts | pipeline/scripts/8_generate_key_concerns.py:187-195 | the loop finds the first severe-negative topic and the first high-negative topic |
| KeyConcerns.PickChoosesFirstWorst | pipeline/scripts/8_generate_key_concerns.py:175-209 | a provision yields a candidate exactly when it has an impact with some severe- or high-negative topic; the candidate names the first severe-negative topic, or, when there is none, the first high-negative one |
| KeyConcerns.BandAt | pipeline/scripts/8_generate_key_concerns.py:175-209 | a band lists its picked provisions in section order |
| KeyConcerns.BandLength | pipeline/scripts/8_generate_key_concerns.py:206-209 | every candidate in a band has that band's level |
| KeyConcerns.OneCandidatePerProvision | pipeline/scripts/8_generate_key_concerns.py:206-209 | each provision lands in at most one band, so there are at most as many candidates as provisions |
| KeyConcerns.ImpactfulOrder | pipeline/scripts/8_generate_key_concerns.py:211-215 | all severe candidates in section order, then the high ones, a permutation of the high band sorted by descending confidence with ties in section order |
| KeyConcerns.CollectCandidates | pipeline/scripts/8_generate_key_concerns.py:172-209 | the loop builds exactly the severe and the high band |
| KeyConcerns.ToConcernShape | pipeline/scripts/8_generate_key_concerns.py:122-128 | a concern's id is the slug of its title, it relates to its provision only, and its severity is one of the four |
| KeyConcerns.ConcernsShape | pipeline/scripts/8_generate_key_concerns.py:232-238 | one concern per candidate, in order, each with those properties |
| KeyConcerns.ConcernAt | pipeline/scripts/8_generate_key_concerns.py:232-238 | concern `i` is made from candidate `i` |
| KeyConcerns.GenerateAll | pipeline/scripts/8_generate_key_concerns.py:232-238 | the loop computes the concerns (or the exception) |
| KeyConcerns.ConcernsStop | pipeline/scripts/8_generate_key_concerns.py:237 | an exception from the writer ends the loop |
| KeyConcerns.SeverityRanked | pipeline/scripts/8_generate_key_concerns.py:244 | critical, high, medium and low rank 0 to 3 |
| KeyConcerns.RankedOrder | pipeline/scripts/8_generate_key_concerns.py:243-245 | the sorted concerns are a permutation, ordered by severity, with ties kept in generation order |
| KeyConcerns.GenerateKeyConcerns | pipeline/scripts/8_generate_key_concerns.py:131-269 | skips existing concerns unless `force`; it stops on no sections; with no candidates it clears the concerns (a write, even in a dry run); it raises with the writer; or it writes the ranked concerns once |
| KeyConcerns.PlanConcerns | pipeline/scripts/8_generate_key_concerns.py:152-262 | the outcome is `Planned`: no sections, cleared, the writer's exception, the dry run, or the concerns ranked by severity |
| EnrichMetadata.RemoveNumberPrefix | pipeline/scripts/9_enrich_metadata.py:17-19 | without a `digits.` prefix the text is unchanged; with one, the result is the rest after the prefix and any whitespace after it |
| EnrichMetadata.RemovesOnePrefix | pipeline/scripts/9_enrich_metadata.py:17-19 | `digits + '.' + spaces + rest` becomes `rest` |
| EnrichMetadata.ExtractBillTitle | pipeline/scripts/9_enrich_metadata.py:22-37 | the title of the first preamble whose title is longer than 10 characters, `''` exactly when there is none |
| EnrichMetadata.CalculateStatistics | pipeline/scripts/9_enrich_metadata.py:40-74 | the loop computes the tallies |
| EnrichMetadata.KindNames | pipeline/scripts/9_enrich_metadata.py:61-66 | each category name matches its kind and no other |
| EnrichMetadata.TalliedBounds | pipeline/scripts/9_enrich_metadata.py:49-74 | the three category counts add up to at most the section count, with equality exactly when every section has a category; `provisions` is the number of provisions |
| EnrichMetadata.NoLegacyImpactsCounted | pipeline/scripts/9_enrich_metadata.py:71-72 | `withImpacts` counts the key `impacts`, which no stage writes, so it is 0 on pipeline output |
| EnrichMetadata.StatisticsOfSections | pipeline/scripts/9_enrich_metadata.py:49-74 | every count is at most `totalSections` |
| EnrichMetadata.TitleAndSlug | pipeline/scripts/9_enrich_metadata.py:102-105 | for a numbered file name, the title loses the number and the slug keeps it |
| EnrichMetadata.ComputeMetadata | pipeline/scripts/9_enrich_metadata.py:104-124 | the metadata built from the file name, the PDF check, the clock and the statistics |
| EnrichMetadata.EnrichMetadata | pipeline/scripts/9_enrich_metadata.py:77-146 | skips existing metadata unless `force`; it stops on no sections, or writes the metadata once; nothing else changes |
| EnrichMetadata.Store | pipeline/scripts/9_enrich_metadata.py:141-146 | the metadata is set and the document written once |
| TransformForWeb.ExtractBillNumber | pipeline/scripts/10_transform_for_web.py:19-22 | the leading digits before a dot, `''` exactly when the name has no such prefix |
| TransformForWeb.NumberThenTitle | pipeline/scripts/10_transform_for_web.py:19-22 | a file name splits into the bill number, the dot, whitespace, and the title stage 9 derives from it |
| TransformForWeb.KeyOfTopic | pipeline/scripts/10_transform_for_web.py:48-59 | each topic name maps to its web key |
| TransformForWeb.WebKeyOf | pipeline/scripts/10_transform_for_web.py:48-53 | a topic's web key belongs to it alone and is one of the four keys |
| TransformForWeb.WebKeysDistinct | pipeline/scripts/10_transform_for_web.py:48-76 | the four web keys are distinct, listed in topic order, and are exactly the topics' keys |
| TransformForWeb.RelevantTopicsMembers | pipeline/scripts/10_transform_for_web.py:93-97 | a topic is related exactly when the provision rates it other than `neutral`, `none` or empty |
| TransformForWeb.RelatedKeysMembers | pipeline/scripts/10_transform_for_web.py:93-97 | `relatedImpacts` holds exactly the keys of those topics |
| TransformForWeb.RelatedTopicKeys | pipeline/scripts/10_transform_for_web.py:93-97 | for an impact keyed by the topics in order, a topic's key is related exactly when its level is relevant |
| TransformForWeb.AssessedLinks | pipeline/scripts/10_transform_for_web.py:93-97 | for an impact written by stage 6, a topic is related exactly when its level is not neutral |
| TransformForWeb.LinkIdsMembers | pipeline/scripts/10_transform_for_web.py:99-106 | a provision is linked under a key exactly when the key is among its related impacts |
| TransformForWeb.LinksAppend | pipeline/scripts/10_transform_for_web.py:82-106 | the links of two runs of provisions are the links of each, in order |
| TransformForWeb.LinksMembers | pipeline/scripts/10_transform_for_web.py:82-106 | an id is linked under a key exactly when some provision with that id relates to the key |
| TransformForWeb.RelatedTopicIsLinked | pipeline/scripts/10_transform_for_web.py:99-106 | every provision is linked from each impact it relates to |
| TransformForWeb.InitialImpacts | pipeline/scripts/10_transform_for_web.py:55-68 | one impact per analysed topic, under its key, carrying the analysis's score and text and no links |
| TransformForWeb.AddTopic | pipeline/scripts/10_transform_for_web.py:56-68 | one topic's pass of that loop |
| TransformForWeb.LinkProvision | pipeline/scripts/10_transform_for_web.py:88-106 | one provision's related keys, with its id appended to the analysed impact or to the pending list of each |
| TransformForWeb.LinkKey | pipeline/scripts/10_transform_for_web.py:99-106 | one key's append keeps the link invariant |
| TransformForWeb.LinkSections | pipeline/scripts/10_transform_for_web.py:79-115 | the provisions in section order, with the links of every key recorded on its impact or pending list |
| TransformForWeb.WebProvisions | pipeline/scripts/10_transform_for_web.py:108-115 | one web provision per provision, in order |
| TransformForWeb.LinkPending | pipeline/scripts/10_transform_for_web.py:136-145 | a neutral impact is added for each key without analysis that has pending links; existing impacts stay |
| TransformForWeb.FinalImpacts | pipeline/scripts/10_transform_for_web.py:136-145 | after that pass, analysed topics carry their analysis and all their links; other topics appear, as neutral, exactly when they have links |
| TransformForWeb.ConvertConcerns | pipeline/scripts/10_transform_for_web.py:117-127 | one web concern per concern, in order |
| TransformForWeb.Link | pipeline/scripts/10_transform_for_web.py:43-145 | the provisions and impacts of the web bill, as in `TransformBill` |
| TransformForWeb.TransformBill | pipeline/scripts/10_transform_for_web.py:25-165 | id is the file name's slug; the summary falls back to `Analysis of <name>`; title and PDF path come from metadata; provisions in order; impacts for analysed topics and linked others; concerns one to one; fixed defaults |
| DoclingToJson.FirstWithin | pipeline/scripts/2_docling_to_json.py:91-95 | the first indentation level within 5 points of the margin, none before it |
| DoclingToJson.IndentOf | pipeline/scripts/2_docling_to_json.py:90-95 | `indent_level` is 0 or the first level within 5 points; when it is 0, either level 0 matches or no level does |
| DoclingToJson.IndentLevel | pipeline/scripts/2_docling_to_json.py:88-95 | the loop finds that level |
| DoclingToJson.Spaces | pipeline/scripts/2_docling_to_json.py:99 | `'  ' * k` as `n` spaces |
| DoclingToJson.FormatAsMarkdown | pipeline/scripts/2_docling_to_json.py:76-107 | the markdown of one item |
| DoclingToJson.MarkdownShape | pipeline/scripts/2_docling_to_json.py:76-107 | empty exactly for empty text; the text ends the result; headers get `## `, list items two spaces per indentation level then `- `, everything else is unchanged |
| DoclingToJson.MaxEndRow | pipeline/scripts/2_docling_to_json.py:118 | the largest end row: at least every cell's end row, and equal to some cell's |
| DoclingToJson.MaxEndCol | pipeline/scripts/2_docling_to_json.py:119 | the largest end column: at least every cell's end column, and equal to some cell's |
| DoclingToJson.Grid | pipeline/scripts/2_docling_to_json.py:122-130 | `max_row` rows of `max_col` entries, none when the maximum is not positive |
| DoclingToJson.FillGrid | pipeline/scripts/2_docling_to_json.py:125-130 | the fill loop raises exactly when some cell within bounds has a start index below minus the grid size; otherwise each entry is the stripped text of the last cell written there |
| DoclingToJson.PlaceCell | pipeline/scripts/2_docling_to_json.py:125-130 | one cell raises exactly when `Raises` says so; otherwise the grid then holds the texts of the cells up to and including it |
| DoclingToJson.CellTextUnwritten | pipeline/scripts/2_docling_to_json.py:122 | an entry no cell writes stays `''` |
| DoclingToJson.CellTextLastWritten | pipeline/scripts/2_docling_to_json.py:125-130 | an entry holds the stripped text of the last cell written there |
| DoclingToJson.GridRow | pipeline/scripts/2_docling_to_json.py:142-143 | one row of the grid |
| DoclingToJson.RenderLines | pipeline/scripts/2_docling_to_json.py:136-143 | the loop builds the table's lines |
| DoclingToJson.TableShape | pipeline/scripts/2_docling_to_json.py:136-145 | a header line, a `---` separator with one entry per column, then one line per further row, each framed by `\| ` and ` \|` |
| DoclingToJson.RowLineFrame | pipeline/scripts/2_docling_to_json.py:138-143 | each line starts with `\| ` and ends with ` \|` |
| DoclingToJson.TableToMarkdown | pipeline/scripts/2_docling_to_json.py:110-147 | `''` for no cells or no rows, the failure marker when filling raises, otherwise the lines joined by newlines |
| DoclingToJson.TableItems | pipeline/scripts/2_docling_to_json.py:169-183 | a `table` item for each table whose markdown is not empty, in order |
| DoclingToJson.TableItemsAreContent | pipeline/scripts/2_docling_to_json.py:169-183 | table items are never provision boundaries and never empty |
| DoclingToJson.Roles | pipeline/scripts/2_docling_to_json.py:202-271 | one role per item |
| DoclingToJson.RolesAt | pipeline/scripts/2_docling_to_json.py:202-271 | item `k`'s role is decided by item `k` alone |
| DoclingToJson.RolesHeaders | pipeline/scripts/2_docling_to_json.py:227-257 | no role is a header exactly when no item is a provision boundary |
| DoclingToJson.FoldTitles | pipeline/scripts/2_docling_to_json.py:257-266 | each header opens one provision, titled with its text, in order |
| DoclingToJson.FoldContent | pipeline/scripts/2_docling_to_json.py:267-271 | with no further header, non-empty content joins the open provision in order |
| DoclingToJson.FoldDropped | pipeline/scripts/2_docling_to_json.py:267 | content before any header is dropped |
| DoclingToJson.ExtractedTitles | pipeline/scripts/2_docling_to_json.py:199-275 | the provisions' titles are the boundary headers' texts, in order: one provision per boundary |
| DoclingToJson.HeaderTitlesOfItems | pipeline/scripts/2_docling_to_json.py:257-266 | every boundary header becomes a provision title |
| DoclingToJson.PreambleDropped | pipeline/scripts/2_docling_to_json.py:267 | items before the first boundary contribute nothing |
| DoclingToJson.LastProvision | pipeline/scripts/2_docling_to_json.py:273-275 | the last boundary's provision, with all content after it, is appended at the end |
| DoclingToJson.LastHeader | pipeline/scripts/2_docling_to_json.py:257-275 | the same on roles |
| DoclingToJson.BodyIsFormatted | pipeline/scripts/2_docling_to_json.py:267-271 | content that is kept is the item's markdown, which is never empty |
| DoclingToJson.GroupProvisions | pipeline/scripts/2_docling_to_json.py:199-277 | the loop groups the sorted items into exactly the extracted provisions |
| DoclingToJson.ItemRole | pipeline/scripts/2_docling_to_json.py:203-255 | an item is skipped, a provision header or content exactly as `RoleOf` decides |
| DoclingToJson.TakeItem | pipeline/scripts/2_docling_to_json.py:257-271 | one item advances the grouping by one `Step` on its role |
| DoclingToJson.ExtractProvisions | pipeline/scripts/2_docling_to_json.py:150-277 | texts and table items, put in reading order, grouped into provisions |
| DoclingToJson.NumberingAt | pipeline/scripts/2_docling_to_json.py:327 | provisions are numbered from 1 in order |
| DoclingToJson.NewSections | pipeline/scripts/2_docling_to_json.py:326-335 | section `j` has index `j + 1`, the provision's title, its content joined by blank lines and stripped, a slug id, and nothing else yet |
| DoclingToJson.SectionTitles | pipeline/scripts/2_docling_to_json.py:326-335 | one section per boundary header, titled with it, in order |
| DoclingToJson.BuildSections | pipeline/scripts/2_docling_to_json.py:325-335 | the loop builds those sections |
| DoclingToJson.CreateBillJson | pipeline/scripts/2_docling_to_json.py:280-339 | the bill JSON holds only the sections built from the extracted provisions |
| StableSort.Sort | pipeline/scripts/8_generate_key_concerns.py:212 | a permutation of its input |
| StableSort.SortSorted | pipeline/scripts/8_generate_key_concerns.py:212 | ordered by the key |
| StableSort.SortStable | pipeline/scripts/8_generate_key_concerns.py:245 | stable: the items with any one key keep their relative order |

## Left out

- Calls to the language models, and their prompts and signatures. Each call
  (`categorize_section`, `summarize_section`, `assess_impact`,
  `generate_executive_summary`, `generate_topic_impact_analysis`,
  `generate_key_concern`) is a function parameter that returns a value or an
  exception. The `dspy` set-up and the API key are not part of this model.
- `1_pdf_to_text.py` and the `main` functions. Command-line parsing,
  printing, `sys.exit`, and the loops over several bill files are left out: they
  are orchestration and I/O.
- JSON reading and writing. A load is `Document.Load`, and a write appends the
  whole document to a ghost log. A write that is cut off half-way is not
  modelled: each write is atomic here.
- `infer_document_structure` and `sort_key` in stage 2. The inferred structure
  and the reading order are parameters.
- In `create_bill_json`:
  - the `bill_title` search is left out because its result is never used in the output;
  - the `.docling` suffix and the output path are left out;
  - a missing input file, which exits, is left out.
- Stage 9's filesystem and clock: whether the PDF exists and the timestamp
  are parameters.
- Stage 10's `process_bill`: the PDF copy, directory creation and the output
  path are file operations.
- The JSON layout the generator and analyser receive (`json.dumps`). They receive
  the entries as values.
- Unicode case folding and digits. Lower-casing is ASCII only, and `\d` is
  ASCII digits. (`\s` and `strip()` use exactly the characters Python's
  `str.isspace` accepts.)
- Confidence is a `real` and only orders high-negative candidates.
- A classifier answer outside the three categories raises `KeyError` at the
  count update. The model's category is a three-valued type, so that case
  falls under the classifier's failure.
- An `impact` that is an empty dict, which is falsy in Python, is not
  representable. It behaves as an impact whose levels are all absent, which
  the later stages read the same way.
- Stage 9 counts the key `impacts` (plural), which no stage writes. It is the
  section flag `legacyImpacts`, and `EnrichMetadata.NoLegacyImpactsCounted`
  shows that the count is 0 on pipeline output.
- Stage 10's `impacts` is a map, so the key order of the output dict is lost.
  In the source, analysed topics come first and pending topics follow in
  `TOPIC_KEY_MAP` order. Nothing in the pipeline reads that order.
- Stage 10 reads a concern's fields with defaults. Stage 8 always writes all of
  them, so the defaults are not modelled.
- Missing dictionary keys that raise `KeyError`, such as a section without
  `title` or a cell without its offsets, are not modelled.
- `extract_bill_title`'s test for a non-empty title is implied by its length
  test, so it has no separate branch.
- `EnrichMetadata.ExtractBillTitle`: the function is defined in the script
  but `enrich_metadata` does not call it. It is modelled and proved on its own.
- `Categorize.Counts.Bump` states only that the total grows by one. Which
  category grew is given by its definition and by `Categorize.LoopCounts`.
