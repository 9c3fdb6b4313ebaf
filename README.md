# Contract Analyzer — a Dafny model of its deterministic core

Contract Analyzer reads a contract, splits it into clauses, stores them with their types and embeddings, and answers questions about the contract. A planner chooses tools for each request and an executor runs them. The tools include a rule-based question answerer, a key-clause extractor, a structured analyzer, an unclear-wording detector and a risk analyzer. Formatters turn the tool results into text. A web frontend sends the request with a mode tag, keeps the list of analysed contracts in browser storage, shows a risk dashboard and an executive snapshot, and exports a PDF report.

This project models the parts of that system that are plain logic, and proves properties of them:

- the retrieval scoring and the rule layer in the backend: `confidence`, `rule_based_qa`, `question_router`, `clause_classifier`, `key_clause_extractor`, `structured_analyzer`, `unclear_detector`, `risk_analyzer`, `contract_parser`;
- the two stores. `ContractStore` and `VectorStore` are classes whose methods update fields;
- the agent: the mode-tag extraction and plan normalisation in `planner`, and the step and intent dispatch in `executor`;
- the text `formatters` and the password rule in `auth`;
- in the frontend:
  - the mode prompt and query label (`app_content`);
  - the plan and evidence text (`workspace`);
  - the session store (`storage`, a class over the browser storage);
  - the risk views (`risk_dashboard_lib`, `risk_dashboard`, `executive_snapshot`);
  - the PDF normalisers (`export_pdf`).

JSON values are the datatype `Json` in `json.dfy`. `NaN` is a separate constructor, because the frontend treats it as a number that fails every comparison. An absent field (`undefined`) is `None`.

Everything the core calls but does not define is a function-typed parameter:
- the language model (`llm`);
- the sentence encoder (`embed`) and the nearest-neighbour index (`knn`, `search`);
- `math.exp`;
- `JSON.stringify` and `JSON.parse`;
- the rendering of a number as text.

The model holds for every such function, except where a lemma states the property it assumes, for example that `exp` is monotone.

Where the source's loops build results step by step, the model has methods with loop invariants. Each method is proved equal to a specification function. The properties are proved about that function as lemmas.

Inconsistencies in the source, as modelled:

- `agents/executor.py:10` imports `rule_based_answer`, which `tools/rule_based_qa.py` does not define. The model passes the rule answer in as a parameter.
- Step mode calls `generate_legal_questions(vector_store, qk)`, while the function takes `(store, vector_store, k)`. The arguments are shifted, and `Executor.StepCall` records the call as written.
- `ContractStore` records carry no `clause_id` (`ContractStore.StoreRecordsHaveNoClauseId`). `tools/unclear_detector.py:37` reads one, so the first flagged clause raises `KeyError`. `UnclearDetector.NoIdsMeansErrorOnFirstFlag` proves this, and the error is modelled as `Err`.
- `rag/vector_store.py` returns bare texts and has no `search_with_scores`. The key-clause extractor therefore always takes its fallback path with a distance of `None`.
- FAISS pads missing hits with `-1`, and Python reads that as the last text (`VectorStore.PaddingYieldsLastText`).
- `tools/structured_analyzer.py:96-99` cannot be reached, because every path before it returns.
- The three frontend percent renderings use different thresholds:
  - `RiskDashboard.tsx:90` scales values up to 1;
  - `exportPdf.ts:22` scales values up to 1.5;
  - `ExecutiveSnapshot.tsx:71` divides values above 1.5.
  A score of 1.2 therefore reads as 1% on the dashboard and as 120% in the PDF (`ExportPdf.PercentScalesDisagree`).
- `normalizeLevel` is written twice, in `ExecutiveSnapshot.tsx` and `RiskDashboard.tsx`, with the same priorities. The model defines it once and proves that the dashboard's report extraction agrees with the snapshot's.
- `cleanQueryLabel` is written twice, in `AppContent.tsx` and `Workspace.tsx`, with the same body. The model defines it once, in `AppContent`.
- In `lib/riskDashboard.ts:10` the fallbacks after the first candidate can never be chosen (`RiskDashboardLib.RiskReportFallbacksRedundant`). That extractor also misses a report passed directly (`RiskDashboardLib.BareReportNotFound`).
- `formatEvidence` collects numbers with `Number(x)`, so a `null` citation counts as clause 0.

## Model

| member | source | states |
|---|---|---|
| Confidence.L2ToConfidence | tools/confidence.py:4-17 | the confidence lies in [0, 1], and a missing or non-numeric distance gives exactly 0.0 |
| Confidence.ConfidenceAtZero | tools/confidence.py:16-17 | distance 0 gives confidence 1.0 |
| Confidence.ConfidenceAntitone | tools/confidence.py:4-17 | for a positive `alpha`, a smaller distance never gives a lower confidence |
| Confidence.ConfidenceUnclamped | tools/confidence.py:16-17 | for non-negative distance and `alpha` the clamp never changes `exp(-alpha * d)` |
| Confidence.Confidences | tools/confidence.py:22 | one confidence per distance, each the confidence of that distance |
| Confidence.AverageConfidence | tools/confidence.py:19-23 | 0.0 for an empty list; otherwise the arithmetic mean of the per-distance confidences, within [0, 1] |
| Confidence.TopConfidence | tools/confidence.py:25-28 | 0.0 for an empty list; otherwise the confidence of some distance, at least every other one's, within [0, 1] |
| Confidence.TopAtLeastAverage | tools/confidence.py:19-28 | the top confidence is never below the average confidence of the same list |
| RuleBasedQa.CanTerminateEarly | tools/rule_based_qa.py:1-18 | the answer is the sentinel or the preamble followed by one of the clauses verbatim |
| RuleBasedQa.AnswerQuotesFirstQualifying | tools/rule_based_qa.py:6-16 | the quoted clause is the first one, in input order, mentioning "terminate" and a notice-like word |
| RuleBasedQa.NoQualifyingClause | tools/rule_based_qa.py:18 | with no qualifying clause (an empty list included) the answer is exactly the sentinel |
| RuleBasedQa.YesIffSomeClauseQualifies | tools/rule_based_qa.py:6-18 | the answer starts with "Yes" if and only if some clause qualifies |
| QuestionRouter.RouteQuestion | tools/question_router.py:1-22 | the route is one of termination, payment, confidentiality, general |
| QuestionRouter.RoutePriority | tools/question_router.py:13-22 | a category is chosen exactly when one of its words occurs and no word of an earlier category does; "general" exactly when none occurs |
| QuestionRouter.RouteIgnoresCase | tools/question_router.py:11 | a question and its lower-cased form are routed alike |
| ClauseClassifier.FirstMatchingType | tools/clause_classifier.py:12-17 | "unknown" exactly when no type from position `i` on has a keyword in the text; otherwise the first such type in table order |
| ClauseClassifier.ClassifyRuleBased | tools/clause_classifier.py:10-17 | "unknown" if and only if no keyword of any type occurs in the lower-cased clause; otherwise the first matching type in table order |
| ClauseClassifier.RuleResultIsKnownLabel | tools/clause_classifier.py:2-17 | the rule result is one of the five table keys or "unknown" |
| ClauseClassifier.ClassifyClause | tools/clause_classifier.py:32-37 | the rule result when it is not "unknown", else the model's reply stripped and lower-cased |
| ClauseClassifier.RuleWinsOverModel | tools/clause_classifier.py:33-35 | when a keyword matches, the model's reply cannot change the result |
| KeyClauseExtractor.MaxDist | tools/key_clause_extractor.py:56 | the ceiling is 1.10 for the payment topic and 1.20 for every other topic |
| KeyClauseExtractor.Unpack | tools/key_clause_extractor.py:59-73 | three-tuples give id, text and distance; two-tuples give no id; any other hit gives its string form and no distance |
| KeyClauseExtractor.Entry | tools/key_clause_extractor.py:86-89 | an entry carries the hit's clause id and text |
| KeyClauseExtractor.Filtered | tools/key_clause_extractor.py:58-89 | the surviving hits, never more than the hits |
| KeyClauseExtractor.Cap | tools/key_clause_extractor.py:91-92 | the loop allows at least one entry, and at least `top_k` |
| KeyClauseExtractor.PickHits | tools/key_clause_extractor.py:53-97 | the inner loop yields exactly the first surviving hits up to the cap, or the "Not found" entry |
| KeyClauseExtractor.RawEntries | tools/key_clause_extractor.py:49-51 | one entry per raw hit, each with no clause id and the hit's text |
| KeyClauseExtractor.ExtractKeyClauses | tools/key_clause_extractor.py:32-98 | one entry per topic in `KEY_TOPICS` order, each the topic's result for the store at hand |
| KeyClauseExtractor.FilteredAppend | tools/key_clause_extractor.py:58-89 | filtering keeps hit order: it distributes over concatenation |
| KeyClauseExtractor.FilteredSound | tools/key_clause_extractor.py:75-89 | every entry comes from a hit that passes all three guards |
| KeyClauseExtractor.FilteredComplete | tools/key_clause_extractor.py:75-89 | every hit that passes all three guards gives an entry |
| KeyClauseExtractor.DistanceCeiling | tools/key_clause_extractor.py:79-80 | a hit with a known distance survives exactly when the distance is at most the topic's ceiling |
| KeyClauseExtractor.HitShapes | tools/key_clause_extractor.py:66-76 | two-tuple hits carry no clause id; hits whose text is None are skipped |
| KeyClauseExtractor.PickedBounds | tools/key_clause_extractor.py:91-95 | a topic list is never empty and never longer than the cap (`top_k` when positive) |
| KeyClauseExtractor.PickedNotFound | tools/key_clause_extractor.py:94-95 | with no surviving hit the list is exactly the "Not found" entry |
| KeyClauseExtractor.PickedEntriesQualify | tools/key_clause_extractor.py:75-89 | every picked entry comes from a surviving hit within the ceiling, and payment entries pass the keyword check |
| KeyClauseExtractor.PickedKeepsOrder | tools/key_clause_extractor.py:86-92 | the picked entries are the first surviving hits, in hit order |
| KeyClauseExtractor.OneEntryPerTopic | tools/key_clause_extractor.py:42-97 | the result has one entry per topic in `KEY_TOPICS` order, each between 1 and the cap long on the scored path |
| StructuredAnalyzer.Block | tools/structured_analyzer.py:38-48 | a tuple hit yields "[Clause cid] " and its first 1200 characters unless the section is compensation and the text fails the keyword check; any other hit yields "[Clause ?] " outside compensation only |
| StructuredAnalyzer.Blocks | tools/structured_analyzer.py:36-48 | a section never has more blocks than hits |
| StructuredAnalyzer.SectionBlocks | tools/structured_analyzer.py:36-48 | the inner loop collects exactly the blocks of the section's hits, in hit order |
| StructuredAnalyzer.BuildRetrieved | tools/structured_analyzer.py:33-53 | one entry per section in `SECTIONS` order, each the evidence for that section's search |
| StructuredAnalyzer.BlocksAppend | tools/structured_analyzer.py:38-48 | blocks keep hit order: assembly distributes over concatenation |
| StructuredAnalyzer.BlocksSound | tools/structured_analyzer.py:38-48 | every block renders some hit of the section |
| StructuredAnalyzer.NonCompensationKeepsEveryHit | tools/structured_analyzer.py:46-48 | outside compensation every hit gives exactly one block, in order |
| StructuredAnalyzer.CompensationBlocksQualify | tools/structured_analyzer.py:42-43 | every compensation block quotes a tuple hit that passes the keyword check |
| StructuredAnalyzer.BlockQuotesPrefix | tools/structured_analyzer.py:45-48 | a block quotes a prefix of at most 1200 characters of its hit |
| StructuredAnalyzer.NotFoundIffNoBlocks | tools/structured_analyzer.py:50-53 | a section reads "Not found" exactly when none of its hits gave a block |
| UnclearDetector.ClauseIssues | tools/unclear_detector.py:33-51 | a clause raises one issue per table that has a matching pattern, so zero, one or two |
| UnclearDetector.FirstMatch | tools/unclear_detector.py:34-41 | the pattern loop finds a match exactly when some pattern of the table matches |
| UnclearDetector.FindUnclearOrMissing | tools/unclear_detector.py:22-53 | the scan yields the issues of all clauses in store order, or the `KeyError` of the first flagged clause without an id |
| UnclearDetector.ScanStaysErr | tools/unclear_detector.py:29-51 | once a clause raises the `KeyError`, the rest of the store cannot change the outcome |
| UnclearDetector.EmptyStoreHasNoIssues | tools/unclear_detector.py:27-53 | an empty store yields no issues |
| UnclearDetector.ClauseIssuesShape | tools/unclear_detector.py:33-51 | at most two issues per clause, missing-value first and vague-language last, each quoting the clause's id and first 500 characters |
| UnclearDetector.ScanAppend | tools/unclear_detector.py:29-53 | issues follow store order: scanning a concatenation concatenates the issues |
| UnclearDetector.CleanClauseContributesNothing | tools/unclear_detector.py:33-51 | a clause matching no pattern adds nothing, whatever its id |
| UnclearDetector.NoIdsMeansErrorOnFirstFlag | tools/unclear_detector.py:36-37 | over records without "clause_id" the scan succeeds exactly when no clause is flagged, and then finds nothing |
| UnclearDetector.BlankIgnoresCase | tools/unclear_detector.py:35 | blank-value patterns ignore case |
| RiskAnalyzer.LevelOf | tools/risk_analyzer.py:24-31 | high risk iff the score is at least 4, medium iff 2 to 3, low iff below 2 |
| RiskAnalyzer.AnalyzeContractRisk | tools/risk_analyzer.py:1-37 | the report's score, level and findings are those of the three missing-type checks |
| RiskAnalyzer.ScoreAndFindings | tools/risk_analyzer.py:6-22 | the score lies in 0..5 and there is one finding per missing type |
| RiskAnalyzer.HighRiskMeans | tools/risk_analyzer.py:9-31 | high risk exactly when confidentiality and termination are both missing; low risk exactly when neither is |
| RiskAnalyzer.FindingsOrder | tools/risk_analyzer.py:9-22 | findings name the missing types in the order confidentiality, termination, payment |
| RiskAnalyzer.CompleteContract | tools/risk_analyzer.py:6-31 | a store with all three types scores 0, low risk, with no findings |
| ContractParser.LeadingUnderscores | tools/contract_parser.py:28 | the count is the length of the longest run of underscores at the start |
| ContractParser.RemoveUnderscoreRuns | tools/contract_parser.py:28 | the substitution never lengthens the text and keeps a leading non-underscore character |
| ContractParser.UnderscoreRunsRemoved | tools/contract_parser.py:28 | after the substitution no run of three or more underscores is left |
| ContractParser.KeepStripped | tools/contract_parser.py:36-51 | the filter keeps at most one stripped piece per input piece |
| ContractParser.KeepStrippedQualifies | tools/contract_parser.py:36-51 | every kept piece is stripped, passes the guards and is the strip of some input piece |
| ContractParser.KeepStrippedAppend | tools/contract_parser.py:36-51 | the filter keeps relative order: it distributes over concatenation |
| ContractParser.CleanRawText | tools/contract_parser.py:22-53 | the result is the kept lines of the substituted text, joined by line breaks |
| ContractParser.FilterLines | tools/contract_parser.py:33-51 | the line loop yields exactly the stripped lines that are non-empty, carry no page number and no signature label |
| ContractParser.CleanedTextSplitsIntoKeptLines | tools/contract_parser.py:51-53 | splitting the cleaned text at line breaks gives back exactly the kept lines |
| ContractParser.SkipDigits | tools/contract_parser.py:70 | `\d+`-style skipping stops at the first non-digit and passes only digits |
| ContractParser.SkipGroups | tools/contract_parser.py:70 | `(?:\.\d+)*` never moves backwards nor past the end |
| ContractParser.SeparatorEnd | tools/contract_parser.py:70 | a separator match starts at a line break and ends in whitespace |
| ContractParser.NumberThenSpace | tools/contract_parser.py:70 | the number and what follows it end in whitespace |
| ContractParser.PunctuationThenSpace | tools/contract_parser.py:70 | the optional punctuation and `\s+` end in whitespace |
| ContractParser.SplitFrom | tools/contract_parser.py:73 | `re.split` gives one more piece than separators |
| ContractParser.NumberingSplit | tools/contract_parser.py:70-73 | the split always yields at least one piece |
| ContractParser.SplitFromRoundTrip | tools/contract_parser.py:70-73 | the pieces and separators, interleaved, spell the text back |
| ContractParser.SeparatorsShape | tools/contract_parser.py:70 | every separator starts at a line break and ends in whitespace |
| ContractParser.SplitIntoClauses | tools/contract_parser.py:56-86 | the clauses are the stripped split fragments of the cleaned text with at least 15 words, in order |
| ContractParser.FilterFragments | tools/contract_parser.py:77-84 | the fragment loop keeps exactly the stripped fragments of at least 15 words |
| ContractStore.OfType | rag/contract_store.py:24 | exactly the records of the given type, never more than the store holds |
| ContractStore.Zipped | rag/contract_store.py:17-21 | texts and types pair by position up to the shorter list, with no metadata and no clause id |
| ContractStore.ContractStore.constructor | rag/contract_store.py:2-3 | a new store holds no clauses |
| ContractStore.ContractStore.AddClause | rag/contract_store.py:5-10 | appends one record, with `{}` in place of falsy metadata |
| ContractStore.ContractStore.AddClausesBatch | rag/contract_store.py:13-21 | appends one record per pair of the zip, in order, and nothing else |
| ContractStore.ContractStore.GetByType | rag/contract_store.py:23-24 | exactly the stored records of the given type |
| ContractStore.OfTypeAppend | rag/contract_store.py:24 | the type filter keeps insertion order: it distributes over appending |
| ContractStore.AddedRecordShowsUnderItsType | rag/contract_store.py:5-24 | adding a record changes the filter only for its own type, and only by that record |
| ContractStore.StoreRecordsHaveNoClauseId | rag/contract_store.py:17-21 | no record of a batch carries a clause id or metadata |
| VectorStore.PyIndex | rag/vector_store.py:23 | a lookup below the length succeeds iff the position is not before the start; negative positions count from the end |
| VectorStore.PickTexts | rag/vector_store.py:23 | a successful pick has at most one text per position, each from the table |
| VectorStore.EmbedAll | rag/vector_store.py:12-14 | one embedding per text, in order |
| VectorStore.VectorStore.constructor | rag/vector_store.py:6-9 | a new store has an empty index and no texts |
| VectorStore.VectorStore.Add | rag/vector_store.py:11-15 | texts and their embeddings are appended in step, so the index and the table stay the same length |
| VectorStore.VectorStore.Search | rag/vector_store.py:18-23 | the texts at the positions the nearest-neighbour search returns, filtered by `i < len(texts)` |
| VectorStore.PickInRange | rag/vector_store.py:23 | with positions inside the table, the result is exactly the texts at those positions, in order |
| VectorStore.PastTheEndDropped | rag/vector_store.py:23 | positions at or past the end are dropped |
| VectorStore.PaddingYieldsLastText | rag/vector_store.py:22-23 | a `-1` padding position yields the last text, or raises on an empty table |
| Planner.SkipModeChars | agents/planner.py:22 | `[a-z_]+` under IGNORECASE takes the longest run of mode characters |
| Planner.MatchModeTag | agents/planner.py:22 | a match's group 1 is a non-empty run of mode characters |
| Planner.ExtractModeTag | agents/planner.py:16-29 | a recognised mode is always an allowed intent; otherwise the input comes back unchanged; empty input never has a mode |
| Planner.ModeTagRecognised | agents/planner.py:16-29 | "__MODE__: m body", with any whitespace and any case, yields the lower-cased allowed mode and the stripped body |
| Planner.NoTagNoMode | agents/planner.py:22-24 | an input without `__MODE__`, in any case, yields no mode and itself unchanged |
| Planner.ToolFor | agents/planner.py:37-46 | the tool map sends "qa" to the qa tool and no other mode there |
| Planner.NormalizePlan | agents/planner.py:131-139 | supplied values and unknown keys are kept, missing intent, k and notes take their defaults, and a missing, non-list or empty "steps" becomes the single qa step |
| Planner.DefaultsApplied | agents/planner.py:131-134 | the four `setdefault`s leave other keys alone, keep supplied values and fill the missing ones |
| Planner.RepairKeepsOthers | agents/planner.py:136-137 | the "steps" repair leaves a non-empty list and touches no other key |
| Planner.FixedPlanWellFormed | agents/planner.py:47-78 | every fixed plan has intent, k, notes and a non-empty step list |
| Planner.Plan | agents/planner.py:31-141 | every plan is well formed; a recognised mode tag wins; then "report", "risk", and "summary" with "only", in that order; then the model's reply, normalised, or the qa plan marked parse error or not dict |
| Executor.PlannerToolsRegistered | agents/executor.py:15-24 | every tool a planner mode tag names is in the registry |
| Executor.RunQa | agents/executor.py:27-38 | the rule-based answer is returned when present and not the no-match sentinel; otherwise the LLM answer over the same hits |
| Executor.RunQaSentinelFromLlm | agents/executor.py:35-38 | an answer starting with the no-match sentinel can only come from the LLM |
| Executor.ResultKey | agents/executor.py:66-96 | each registered tool writes one of the known result keys |
| Executor.ErrorKeyDistinct | agents/executor.py:62 | error keys never collide with result keys nor with one another |
| Executor.ArgOr | agents/executor.py:80-95 | a missing argument takes its default |
| Executor.StepCall | agents/executor.py:70-96 | dispatch succeeds unless a tool that reads `args` is given a non-dict, and calls the requested tool |
| Executor.RunStep | agents/executor.py:57-96 | one loop pass raises exactly when the step raises |
| Executor.RunStepWrites | agents/executor.py:61-96 | a pass that does not raise writes its own key and leaves every other key as it was |
| Executor.RunStepDistinct | agents/executor.py:61-96 | the results dict still binds each key once after a pass |
| Executor.RunStepsOk | agents/executor.py:57-96 | the loop completes exactly when no step raises |
| Executor.RunStepsShape | agents/executor.py:55-96 | results bind each key once and are non-empty after a non-empty step list |
| Executor.UnknownToolRecorded | agents/executor.py:61-63 | an unknown tool leaves "Unknown tool: ..." under its own step's error key, and no later step changes it |
| Executor.LastStepWins | agents/executor.py:66-96 | a later step with the same tool overwrites the earlier value |
| Executor.IntentResult | agents/executor.py:104-129 | an unknown, non-string or "qa" intent runs QA |
| Executor.Execute | agents/executor.py:41-129 | the step loop computes exactly the results of the step semantics, unwrapped when there is one, or the exception raised |
| Executor.ErrorPersists | agents/executor.py:57-96 | once a step raises, the whole loop raises the same exception |
| Executor.NoPlanRunsQa | agents/executor.py:49-50 | a `None` plan runs QA with `k` 5 |
| Executor.StepModeIff | agents/executor.py:53-105 | step mode runs exactly when "steps" is a non-empty list and gives the step loop's result, unwrapped; otherwise the intent decides, QA by default |
| Executor.ModePlanExecutes | agents/executor.py:98-100 | a plan built from a mode tag runs its single step and returns that tool's value unwrapped |
| Formatters.DictGet | tools/formatters.py:38-39 | `.get` succeeds exactly on a dict, giving the value or the default; on anything else it raises AttributeError |
| Formatters.Iter | tools/formatters.py:16 | a `for` loop visits a list's items, a string's characters or a dict's keys, in order; it raises TypeError exactly on None, a bool or a number |
| Formatters.Excerpt | tools/formatters.py:40 | a text of at most `n` characters is shown in full; a longer one is cut to `n`; "..." follows either way |
| Formatters.Cut | tools/formatters.py:40 | `[:n]` cuts a string or a list; on anything else it raises TypeError |
| Formatters.AppendLines | tools/formatters.py:16-17 | the append loop adds exactly the lines of the items, in order, and stops at the first item that raises |
| Formatters.LinesAppend | tools/formatters.py:16-17 | appending items appends their lines |
| Formatters.LinesFirst | tools/formatters.py:16-17 | the first item's line comes first |
| Formatters.LinesRaisesAtFirst | tools/formatters.py:16-17 | a loop raises iff one of its items raises, and then with the exception of the first such item |
| Formatters.FormatSummary | tools/formatters.py:3-22 | `str()` of a non-dict; otherwise the summary, the key points when there are bullets, then the citations when there are any |
| Formatters.RenderKeyPoints | tools/formatters.py:14-17 | "Key Points:" and one "- b" line per bullet, or nothing for falsy bullets |
| Formatters.SummaryRaises | tools/formatters.py:7-20 | the summary raises iff its text is not a string or truthy bullets or citations cannot be iterated |
| Formatters.StringBulletsByCharacter | tools/formatters.py:16-17 | a string of bullets is listed character by character |
| Formatters.FormatKeyClauses | tools/formatters.py:25-42 | `str()` of a non-dict; otherwise the banner, then each section in dict order |
| Formatters.RenderSection | tools/formatters.py:32-40 | the upper-cased heading, then "  Not found" for a falsy section or one entry per clause |
| Formatters.ListClauseTextShown | tools/formatters.py:39-40 | a clause text that is a list shows its first 500 items as a list, then "..." |
| Formatters.FormatStructuredAnalysis | tools/formatters.py:45-91 | `str()` of a non-dict; otherwise the banner, the confidence block when a confidence is given, then each section other than `_meta` |
| Formatters.RenderConfidence | tools/formatters.py:55-65 | the confidence line, then the evidence band and a blank line, or nothing when the confidence is None |
| Formatters.RenderStructuredSection | tools/formatters.py:68-89 | a dict section prints its answer and citations, a list section one "- issue" line per item, anything else nothing |
| Formatters.FormatUnclear | tools/formatters.py:94-107 | `str()` of a non-list; otherwise the banner, then the no-issue line for an empty list or one entry per finding |
| Formatters.FormatLawyerQuestions | tools/formatters.py:110-123 | `str()` of a non-list; otherwise the banner, then the questions numbered from 1 |
| Formatters.RenderQuestion | tools/formatters.py:117-121 | one question: its number and text, its reason and its citations when there are any |
| Formatters.NumberedFromSnoc | tools/formatters.py:116-121 | numbering a longer list adds the next number to the new question |
| Formatters.QuestionsNumberedFromOne | tools/formatters.py:116 | the questions are numbered 1, 2, 3, ... in list order |
| Formatters.StringQuestionRaises | tools/formatters.py:117 | a question that is a plain string raises AttributeError |
| Formatters.FormatRiskReport | tools/formatters.py:126-173 | `str()` of a non-dict; otherwise the banner, the score block, the present, missing and additional risks, each only when non-empty |
| Formatters.PresentRisks | tools/formatters.py:149-159 | one entry per present risk, with the confidence line only when a confidence is given |
| Formatters.MissingClauses | tools/formatters.py:161-166 | one "- f" line per missing-clause finding, or nothing; a truthy non-dict raises AttributeError |
| Formatters.AdditionalRisks | tools/formatters.py:168-171 | one line per additional risk, or nothing |
| Formatters.NonNumericScoreRaises | tools/formatters.py:140-142 | a score that is neither None nor a number raises TypeError at the comparison |
| Formatters.FormatFullReport | tools/formatters.py:176-194 | `str()` of a non-dict; otherwise banner, then summary, key clauses, structured analysis, unclear clauses and lawyer questions, in that order |
| Formatters.FullReportIgnoresOtherKeys | tools/formatters.py:184-192 | any key other than the five sections, the risk report included, leaves the report text unchanged |
| Formatters.FullReportStopsAtSummary | tools/formatters.py:184 | a summary that raises makes the whole report raise with it |
| Formatters.FormatQa | tools/formatters.py:197-226 | a non-dict prints as its `str()`; a dict raises iff its confidence is neither None nor a number or its truthy citations cannot be iterated |
| Formatters.EvidenceBands | tools/formatters.py:58-63 | weak iff below 0.50, moderate iff 0.50 to below 0.70, strong iff 0.70 and above |
| Formatters.RiskBands | tools/formatters.py:142-147 | high iff above 0.75, moderate iff above 0.50 up to 0.75, low iff 0.50 or below |
| Formatters.QaWarningBands | tools/formatters.py:214-217 | a very-low warning iff below 0.45, a moderate one iff 0.45 to below 0.60, none iff 0.60 and above |
| Formatters.NaNBands | tools/formatters.py:58-63 | NaN compares false everywhere: strong evidence, low risk, no warning |
| Formatters.NonNumberComparisonRaises | tools/formatters.py:58-63 | the band comparison raises TypeError exactly when its value is not a number (bools count as numbers); the same holds at lines 142 and 214 |
| Formatters.EmptySectionNotFound | tools/formatters.py:32-35 | a falsy section prints its heading and "  Not found" |
| Formatters.MetaNotListed | tools/formatters.py:70-71 | `_meta` adds nothing to the section listing |
| Formatters.StringCitationsByCharacter | tools/formatters.py:223-224 | citations given as a string are joined character by character |
| Formatters.QaMethodFirst | tools/formatters.py:208-209 | a named method comes first as "[QA via method] " |
| Formatters.QaAnswerLast | tools/formatters.py:221-224 | without citations the stripped answer ends the text |
| Formatters.BareQaAnswer | tools/formatters.py:202-221 | with no method, confidence or citations, the text is just the stripped answer |
| Auth.ValidatePassword | api/auth.py:39-49 | every rejection is a 400; a password is accepted iff it has at least 8 characters, an upper-case letter, a lower-case letter, a digit and a character that is not a letter or digit |
| Auth.Failures | api/auth.py:40-49 | at most one message per rule, in rule order |
| Auth.FirstFailureReported | api/auth.py:40-49 | the reported message is the first broken rule's; a password breaking none is accepted |
| Auth.LengthCheckedFirst | api/auth.py:40-41 | a short password is reported as too short whatever else is wrong |
| Auth.EarlierRuleWins | api/auth.py:40-43 | while the length or upper-case rule is broken, fixing later rules does not change the message |
| AppContent.ModeName | frontend/src/AppContent.tsx:40 | every mode's wire name is an intent the planner allows |
| AppContent.BuildModePrompt | frontend/src/AppContent.tsx:38-64 | every prompt starts with the "__MODE__:mode" line |
| AppContent.SkipLabelChars | frontend/src/AppContent.tsx:68 | `[:\w-]*` takes the longest run of label characters |
| AppContent.CleanQueryLabel | frontend/src/AppContent.tsx:66-69 | a missing or empty query shows as ""; otherwise the label is a suffix of the query |
| AppContent.BodyStartsSolid | frontend/src/AppContent.tsx:42-62 | the text after the tag line never starts with whitespace |
| AppContent.PlannerReadsMode | frontend/src/AppContent.tsx:38-64 | the back end's planner reads back every prompt's mode, and the stripped body as the rest |
| AppContent.CleanLabelOfPrompt | frontend/src/AppContent.tsx:66-69 | stripping the tag from any prompt gives back exactly its body |
| AppContent.QaLabelIsQuestion | frontend/src/AppContent.tsx:43-46 | for a question with text, the history label is the trimmed question |
| AppContent.FocusOnlyWithText | frontend/src/AppContent.tsx:39-62 | a "User focus" line is added iff the trimmed text is non-empty; QA falls back to its default request |
| Workspace.ModeLabel | frontend/src/components/layout/Workspace.tsx:36-57 | every mode has a non-empty caption |
| Workspace.ModeLabelInjective | frontend/src/components/layout/Workspace.tsx:36-57 | no two modes share a caption |
| Workspace.ExplainMode | frontend/src/components/layout/Workspace.tsx:59-80 | every explanation is a non-empty sentence ending in a full stop |
| Workspace.StepLines | frontend/src/components/layout/Workspace.tsx:87-94 | one line per step, in step order |
| Workspace.FormatPlan | frontend/src/components/layout/Workspace.tsx:83-98 | no plan prints "No plan yet."; any other plan starts with its intent line |
| Workspace.StepNumbered | frontend/src/components/layout/Workspace.tsx:89-92 | each step line starts with its position counted from one and a full stop |
| Workspace.StepArgsOmitted | frontend/src/components/layout/Workspace.tsx:91-92 | arguments that print as `{}` are left out, with the space before them |
| Workspace.StepArgsShown | frontend/src/components/layout/Workspace.tsx:91-92 | other arguments follow the tool after one space |
| Workspace.StepsSplitBack | frontend/src/components/layout/Workspace.tsx:87-95 | the steps section splits back into exactly the step lines |
| Workspace.NotesOnlyWhenTruthy | frontend/src/components/layout/Workspace.tsx:96-97 | the notes section appears iff the notes are truthy, and the rest does not depend on them |
| Workspace.AddId | frontend/src/components/layout/Workspace.tsx:106-109 | a finite number is added once, after the ids already there; nothing else changes |
| Workspace.Gather | frontend/src/components/layout/Workspace.tsx:111-129 | the walk only adds ids and keeps them distinct |
| Workspace.AddAll | frontend/src/components/layout/Workspace.tsx:122-123 | `forEach(add)` adds exactly the list's finite numbers |
| Workspace.Walk | frontend/src/components/layout/Workspace.tsx:111-129 | the recursive walk builds exactly the set the walk specification describes, in meeting order |
| Workspace.WalkAll | frontend/src/components/layout/Workspace.tsx:115-117 | walking a list walks its items in order |
| Workspace.WalkValues | frontend/src/components/layout/Workspace.tsx:127 | walking an object walks its values in order |
| Workspace.AddEachIsAdded | frontend/src/components/layout/Workspace.tsx:122-123 | `forEach(add)` adds exactly the list's finite numbers |
| Workspace.AddOwnIsOwnIds | frontend/src/components/layout/Workspace.tsx:122-125 | an object adds exactly its own citations, key citations and clause id |
| Workspace.GatherIsCollected | frontend/src/components/layout/Workspace.tsx:111-129 | the walk finds exactly the ids held at any depth |
| Workspace.Smallest | frontend/src/components/layout/Workspace.tsx:133 | sort then slice gives the `n` smallest ids, ascending, and every id left out is larger |
| Workspace.FormatEvidence | frontend/src/components/layout/Workspace.tsx:100-142 | the text is the citation line and evidence list of the ids the walk collects |
| Workspace.EvidenceIdsShape | frontend/src/components/layout/Workspace.tsx:131-133 | the listed ids are held in the result, distinct, ascending, at most 25, and every id left out is larger than all listed |
| Workspace.NoIdsNoEvidence | frontend/src/components/layout/Workspace.tsx:135-139 | with no id held, the text equals the one for a missing result |
| Workspace.OwnClauseIdHeld | frontend/src/components/layout/Workspace.tsx:125 | a finite non-null `clause_id` is collected |
| Workspace.FieldIdsHeld | frontend/src/components/layout/Workspace.tsx:127 | whatever a field's value holds, the object holds too |
| Storage.Loaded | frontend/src/storage.ts:11-20 | a missing or empty text loads as []; a parsed array loads as itself; anything non-empty came from a parsed array |
| Storage.ItemWritable | frontend/src/storage.ts:1-6 | a session item is written faithfully by `JSON.stringify`: its numbers are doubles and its keys are distinct non-index names |
| Storage.RepeatedKeyNotWritable | frontend/src/storage.ts:15 | an object with a repeated key is not among the values asked to round-trip, since `JSON.parse` keeps one binding per key |
| Storage.LateIndexKeyNotWritable | frontend/src/storage.ts:15 | an index key after a name is not among the values asked to round-trip, since JavaScript lists index keys first |
| Storage.FindSession | frontend/src/storage.ts:28 | `findIndex` returns the first entry with the id, no match when every entry is non-null without it, or throws on a null entry met first |
| Storage.Remaining | frontend/src/storage.ts:35 | the filter keeps exactly the entries without the id |
| Storage.ActiveOf | frontend/src/storage.ts:41-43 | the stored active id, or "" when none is stored |
| Storage.SessionStore.constructor | frontend/src/storage.ts:8-9 | the store starts from the given storage contents |
| Storage.SessionStore.LoadSessions | frontend/src/storage.ts:11-20 | returns the sessions the stored text holds |
| Storage.SessionStore.SaveSessions | frontend/src/storage.ts:22-24 | writes the stringified list under the sessions key only |
| Storage.SessionStore.GetActiveContractId | frontend/src/storage.ts:41-43 | returns the active id the storage holds |
| Storage.SessionStore.SetActiveContractId | frontend/src/storage.ts:45-47 | writes the active id only; the sessions are unchanged |
| Storage.SessionStore.UpsertSession | frontend/src/storage.ts:26-32 | saves the upserted list unless `findIndex` throws, and leaves the active id alone |
| Storage.SessionStore.DeleteSession | frontend/src/storage.ts:34-39 | saves the filtered list; a deleted active id falls back to the first remaining session's id or "" |
| Storage.LoadedStorable | frontend/src/storage.ts:11-20 | under the JSON codec's laws, whatever loads can be written back faithfully |
| Storage.SaveThenLoad | frontend/src/storage.ts:11-24 | under the JSON codec's laws, saving a list of writable values and loading again gives the list back |
| Storage.UpsertReplacesFirst | frontend/src/storage.ts:28-29 | a listed id has its first entry replaced in place; the length and the other entries stay |
| Storage.UpsertPrepends | frontend/src/storage.ts:30 | a new id goes in front and the list grows by one |
| Storage.UpsertLists | frontend/src/storage.ts:26-32 | after an upsert the item is listed |
| Storage.RemainingAppend | frontend/src/storage.ts:35 | deleting keeps the other sessions in their order |
| Storage.RemainingKeepsOthers | frontend/src/storage.ts:35 | deleting an absent id removes nothing |
| Ranking.Insert | frontend/src/components/ExecutiveSnapshot.tsx:99-107 | the stable insertion step adds exactly one element and keeps a sorted list sorted |
| Ranking.SortDesc | frontend/src/components/ExecutiveSnapshot.tsx:99-107 | the sort is a permutation of its input, in descending key order |
| Ranking.Slice | frontend/src/components/ExecutiveSnapshot.tsx:108 | `slice(0, n)` is a prefix of the list, of length `n` clipped to the list, with negative `n` counting from the end |
| Ranking.SortedPrefix | frontend/src/components/ExecutiveSnapshot.tsx:98-108 | any prefix of the sorted list is drawn from the input, sorted, and ranks each element at least as high as everything after it |
| Ranking.TopIsTop | frontend/src/components/ExecutiveSnapshot.tsx:98-108 | the top `n` are `min(n, length)` elements of the input, in descending order, none ranking below a left-out element |
| Ranking.LeftOutRanksLower | frontend/src/components/ExecutiveSnapshot.tsx:98-108 | every left-out element ranks no higher than every kept element |
| ExecutiveSnapshot.FirstReportIsFirst | frontend/src/components/ExecutiveSnapshot.tsx:47-53 | what is found is a report-like object from the first qualifying candidate; nothing is found iff none qualifies |
| ExecutiveSnapshot.FirstReportAppend | frontend/src/components/ExecutiveSnapshot.tsx:47-53 | searching two candidate lists in turn is searching their concatenation |
| ExecutiveSnapshot.ExtractRiskReport | frontend/src/components/ExecutiveSnapshot.tsx:45-54 | a found report comes from a truthy result, is an object and has an overall score |
| ExecutiveSnapshot.ExtractIsFirstCandidate | frontend/src/components/ExecutiveSnapshot.tsx:45-54 | the extraction is exactly the first of the six places that holds a report |
| ExecutiveSnapshot.NormalizeLevel | frontend/src/components/ExecutiveSnapshot.tsx:56-63 | a missing or null level is unknown |
| ExecutiveSnapshot.LevelPriority | frontend/src/components/ExecutiveSnapshot.tsx:57-62 | critical iff the text has "critical"; high iff "high" but not "critical"; medium iff "med" but neither; low iff "low" but none of those; unknown otherwise |
| ExecutiveSnapshot.NormalizeIgnoresCase | frontend/src/components/ExecutiveSnapshot.tsx:57 | upper-case letters in a level make no difference |
| ExecutiveSnapshot.NormalizeName | frontend/src/components/ExecutiveSnapshot.tsx:56-63 | every level's own name normalises back to that level |
| ExecutiveSnapshot.LevelRank | frontend/src/components/ExecutiveSnapshot.tsx:65-67 | ranks lie in 0..4 and are 0 exactly for names other than the four levels |
| ExecutiveSnapshot.RankOrdersLevels | frontend/src/components/ExecutiveSnapshot.tsx:65-67 | ranks order the levels strictly: unknown, low, medium, high, critical |
| ExecutiveSnapshot.Clamp01 | frontend/src/components/ExecutiveSnapshot.tsx:71 | the result lies in [0, 1], equals `x` inside it and the nearer bound outside |
| ExecutiveSnapshot.ScoreTo01 | frontend/src/components/ExecutiveSnapshot.tsx:69-72 | only a number has a score, which lies in [0, 1]: kept on [0, 1], 1 on (1, 1.5], divided by 100 on (1.5, 100], clamped beyond |
| ExecutiveSnapshot.MissingBump | frontend/src/components/ExecutiveSnapshot.tsx:75 | the bump lies in [0, 0.12] and is 0 below two missing findings |
| ExecutiveSnapshot.RecLabel | frontend/src/components/ExecutiveSnapshot.tsx:74-79 | high risk iff score plus bump is at least 0.67, safe iff below 0.34, review otherwise |
| ExecutiveSnapshot.RecMonotone | frontend/src/components/ExecutiveSnapshot.tsx:74-79 | a higher score or more missing findings never lower the recommendation |
| ExecutiveSnapshot.MissingMovesOneStep | frontend/src/components/ExecutiveSnapshot.tsx:75 | missing findings raise the recommendation by at most one step |
| ExecutiveSnapshot.Derive | frontend/src/components/ExecutiveSnapshot.tsx:92-130 | the top red flags are the `min(3, n)` highest-ranked present risks, sorted by level then confidence; the missing count is the report's count of missing-clause findings; the lawyer questions are the first `min(4, n)` questions of the report, in order; the score and recommendation follow the report |
| ExecutiveSnapshot.LeftOutFlagsRankLower | frontend/src/components/ExecutiveSnapshot.tsx:98-108 | a present risk left out of the top three ranks no higher than any of them |
| RiskDashboardLib.RiskReportFallbacksRedundant | frontend/src/lib/riskDashboard.ts:10 | the two fallbacks after the first `root?.risk_report` never change the value |
| RiskDashboardLib.ArrayOr | frontend/src/lib/riskDashboard.ts:17-18 | an array is kept, anything else reads as [] |
| RiskDashboardLib.ExtractRiskReport | frontend/src/lib/riskDashboard.ts:8-37 | null iff no truthy report object is found; otherwise the lists default to [], the score is kept iff it is a number, the level iff it is a string, and a nullish missing-risks value gives null and no findings |
| RiskDashboardLib.BareReportNotFound | frontend/src/lib/riskDashboard.ts:9-15 | a report handed over as the result itself, without `full_report`, `result` or `risk_report`, is not found |
| RiskDashboardLib.NestedReportUnwrapped | frontend/src/lib/riskDashboard.ts:10-13 | a report nested one level under `risk_report` is unwrapped; one not nested is taken as it is |
| RiskDashboardLib.ItemKey | frontend/src/lib/riskDashboard.ts:42 | a nullish field counts under "Unknown"; a string field under itself |
| RiskDashboardLib.ItemKeys | frontend/src/lib/riskDashboard.ts:41-42 | one key per item, in order |
| RiskDashboardLib.Bump | frontend/src/lib/riskDashboard.ts:43 | an existing key keeps its place; a new key goes last with count 1 |
| RiskDashboardLib.Occurrences | frontend/src/lib/riskDashboard.ts:41-44 | a key occurs at most once per item |
| RiskDashboardLib.BumpCounts | frontend/src/lib/riskDashboard.ts:43 | a bump adds one to its own key's count and changes no other |
| RiskDashboardLib.BumpTotal | frontend/src/lib/riskDashboard.ts:43 | a bump adds one to the total |
| RiskDashboardLib.CountsAreOccurrences | frontend/src/lib/riskDashboard.ts:39-46 | the record counts every key exactly as often as it occurs |
| RiskDashboardLib.CountsSumToLength | frontend/src/lib/riskDashboard.ts:39-46 | the counts add up to the number of items |
| RiskDashboardLib.BumpKeySet | frontend/src/lib/riskDashboard.ts:43 | a bump adds its own key to the record and no other |
| RiskDashboardLib.BumpKeys | frontend/src/lib/riskDashboard.ts:43 | a bump keeps the keys of the record distinct |
| RiskDashboardLib.CountKeysDistinct | frontend/src/lib/riskDashboard.ts:39-46 | no key appears twice in the record |
| RiskDashboardLib.CountBy | frontend/src/lib/riskDashboard.ts:39-46 | the loop builds exactly the record of bumping each item's key in turn |
| RiskDashboardLib.CountByMeaning | frontend/src/lib/riskDashboard.ts:39-46 | every item is counted once under its key, the counts sum to the item count, and no key appears twice |
| RiskDashboardLib.TopEntriesAreTop | frontend/src/lib/riskDashboard.ts:48-50 | at most `n` entries of the record, sorted by count, and none left out has a larger count than one kept |
| RiskDashboard.ExtractRiskReport | frontend/src/components/RiskDashboard.tsx:55-73 | a found report comes from a truthy result, is an object and has an overall score |
| RiskDashboard.ExtractIsFirstCandidate | frontend/src/components/RiskDashboard.tsx:55-73 | the extraction is exactly the first of the eight places that holds a report |
| RiskDashboard.AgreesWithSnapshot | frontend/src/components/RiskDashboard.tsx:58-70 | whenever the snapshot finds a report the dashboard finds the same one; otherwise the dashboard looks only under `report` and `data` |
| RiskDashboard.Round | frontend/src/components/RiskDashboard.tsx:90-91 | `Math.round` is the nearest whole number, halves rounded up |
| RiskDashboard.Pct | frontend/src/components/RiskDashboard.tsx:88-92 | "—" iff the value is not a number or is NaN; otherwise the rounded percentage and "%" |
| RiskDashboard.PercentMeaning | frontend/src/components/RiskDashboard.tsx:90-91 | a fraction up to 1 prints as a percentage within half a point; a larger value prints as itself, rounded |
| RiskDashboard.NumAt | frontend/src/components/RiskDashboard.tsx:150-153 | no level is counted more often than there are risks |
| RiskDashboard.TallyCountsLevels | frontend/src/components/RiskDashboard.tsx:149-153 | each level's count is the number of risks at that level |
| RiskDashboard.TallySumsToLength | frontend/src/components/RiskDashboard.tsx:149-153 | the level counts sum to the number of present risks |
| RiskDashboard.LevelCounts | frontend/src/components/RiskDashboard.tsx:149-153 | the loop builds exactly the tally of the risks' normalised levels |
| RiskDashboard.ChartData | frontend/src/components/RiskDashboard.tsx:155-159 | four bars: low, medium, high, critical, in that order |
| RiskDashboard.ChartOmitsOnlyUnknown | frontend/src/components/RiskDashboard.tsx:149-159 | the bars plus the unknown-level risks add up to every present risk |
| RiskDashboard.Derive | frontend/src/components/RiskDashboard.tsx:143-176 | nothing without a report; otherwise the counts, the chart of the level tally, and the `min(8, n)` highest-ranked present risks in descending level order |
| ExportPdf.SafeText | frontend/src/lib/exportPdf.ts:10-18 | "" for null or undefined, a string as it is, anything else pretty-printed |
| ExportPdf.ScoreToPct | frontend/src/lib/exportPdf.ts:20-24 | "—" iff the value is not a number or is NaN; otherwise the rounded percentage, with values up to 1.5 read as fractions, and "%" |
| ExportPdf.PercentScalesDisagree | frontend/src/lib/exportPdf.ts:22 | a score of 1.2 prints as 120% in the export, 1% on the dashboard, and 100% in the snapshot |
| ExportPdf.PercentScalesAgreeElsewhere | frontend/src/lib/exportPdf.ts:22-23 | outside (1, 1.5] the export and the dashboard print the same percentage |
| ExportPdf.PickReportRoot | frontend/src/lib/exportPdf.ts:26-44 | an object `full_report` wins; a nullish result gives `{}`; an object result gives an object; the root is always one of the candidates or `{}` |
| ExportPdf.PickOrder | frontend/src/lib/exportPdf.ts:26-44 | the full order: top-level `full_report`, then `result.full_report`, then the result itself when it has report sections, then `risk_report`, then `qa`, each only when no earlier one is an object; otherwise the result, or `{}` when it is nullish |
| ExportPdf.NestedFullReportBeatsSections | frontend/src/lib/exportPdf.ts:27-33 | without a top-level `full_report` object, a `full_report` nested under `result` is the root, whatever sections the result has |
| ExportPdf.SectionsBeatRiskReport | frontend/src/lib/exportPdf.ts:32-40 | a result with report sections and no `full_report` is its own root, ahead of its risk report |
| ExportPdf.ClauseLabel | frontend/src/lib/exportPdf.ts:53-54 | a missing or null clause id shows as "—" |
| ExportPdf.TextOf | frontend/src/lib/exportPdf.ts:55 | a string item is its own text, a null one is empty, and an object gives its value under the key (`clause_text` here, `question` at lines 112-113), or else its `text` |
| ExportPdf.ItemRows | frontend/src/lib/exportPdf.ts:52-62 | at most one row per item, each in its section and with non-empty text |
| ExportPdf.KeyClauseRows | frontend/src/lib/exportPdf.ts:46-48 | a non-object gives no rows |
| ExportPdf.PushItemRows | frontend/src/lib/exportPdf.ts:52-62 | the item loop appends exactly the section's rows |
| ExportPdf.NormalizeKeyClauses | frontend/src/lib/exportPdf.ts:46-66 | the nested loop yields exactly the rows of all sections, section after section |
| ExportPdf.ItemRowsSingle | frontend/src/lib/exportPdf.ts:52-62 | one item gives exactly one row, holding the section, the item's clause label and its text, when that text is non-empty, and no row otherwise |
| ExportPdf.ItemRowsAppend | frontend/src/lib/exportPdf.ts:52-62 | items become rows one after another, in item order; with ItemRowsSingle this determines the rows of every item list |
| ExportPdf.SectionRowsSingle | frontend/src/lib/exportPdf.ts:50-56 | a section gives the rows of its items when its value is an array, and no row otherwise |
| ExportPdf.SectionRowsAppend | frontend/src/lib/exportPdf.ts:50-63 | rows come section by section: they distribute over the section list |
| ExportPdf.SectionRowsFromArrays | frontend/src/lib/exportPdf.ts:50-56 | every row has text and comes from a section whose value is an array |
| ExportPdf.Bullet | frontend/src/lib/exportPdf.ts:78 | every bullet starts with "•" |
| ExportPdf.ElementTexts | frontend/src/lib/exportPdf.ts:86 | one text per element |
| ExportPdf.StructuredRows | frontend/src/lib/exportPdf.ts:68-70 | a non-object gives no rows |
| ExportPdf.NormalizeStructured | frontend/src/lib/exportPdf.ts:68-92 | the topic loop yields exactly the topic rows, in order |
| ExportPdf.ListAnswerMeaning | frontend/src/lib/exportPdf.ts:74-80 | an array topic shows "—" iff it is empty, and only its first five items matter |
| ExportPdf.TopicRowOf | frontend/src/lib/exportPdf.ts:74-88 | an array topic always gives a row without citations; a string or an object with a string answer gives a row iff that answer is not empty; a null gives none; citations appear only when they are an array |
| ExportPdf.TopicRowsMeaning | frontend/src/lib/exportPdf.ts:72-89 | no row is about `_meta`, every row has an answer, and every row's topic is a key of the input |
| ExportPdf.UnclearRowOf | frontend/src/lib/exportPdf.ts:96-100 | a missing clause id, issue type, or snippet and text, each shows as "—" |
| ExportPdf.NormalizeUnclear | frontend/src/lib/exportPdf.ts:94-101 | a non-array gives no rows; an array gives exactly one row per item, in order |
| ExportPdf.QuestionList | frontend/src/lib/exportPdf.ts:104-108 | the first non-nullish of the three question lists, else null |
| ExportPdf.NonEmpty | frontend/src/lib/exportPdf.ts:114 | `filter(Boolean)` keeps exactly the non-empty texts |
| ExportPdf.NonEmptyAppend | frontend/src/lib/exportPdf.ts:114 | filtering distributes over concatenation, so the kept texts keep their order |
| ExportPdf.NonEmptySingle | frontend/src/lib/exportPdf.ts:114 | one text is kept iff it is not empty |
| ExportPdf.NonEmptyKeepsAll | frontend/src/lib/exportPdf.ts:114 | a list without empty texts is kept whole |
| ExportPdf.NormalizeLawyerQs | frontend/src/lib/exportPdf.ts:103-115 | no questions without a list; otherwise every question text that is not empty is listed, and every listed text is the text of one of the questions |
| ExportPdf.LawyerQsKeepOrder | frontend/src/lib/exportPdf.ts:111-114 | when no question text is empty, the list has one text per question, in the questions' order |
| ExportPdf.Snippet | frontend/src/lib/exportPdf.ts:194 | a text of at most 260 characters is kept; a longer one becomes its first 260 and "…" |
| ExportPdf.KeyClauseTable | frontend/src/lib/exportPdf.ts:191-195 | the first `min(40, n)` rows, each with its section, clause id and snippet |

## Left out

- Text handling: lower and upper case, `strip`/`trim` and the character classes of the regular expressions cover ASCII only. Unicode case folding and Unicode whitespace are not modelled.
- Collaborators:
  - `JSON.stringify`, `JSON.parse`, `Number(...)` and `String(number)` are parameters, so their exact output format is not modelled;
  - only the NaN special value is modelled, and `Infinity` is not.
- ExecutiveSnapshot.Confidence: the sort key reads a missing or non-numeric confidence as 0. A `NaN` confidence also reads as 0, whereas JavaScript's comparator would return `NaN` and leave the order to the engine.
- `Object.entries` lists integer-like keys first in JavaScript. The model keeps insertion order for every key.
- Snippet truncation counts characters, whereas JavaScript counts UTF-16 code units.
- ExportPdf.SafeText: the `catch` branch for a value that `JSON.stringify` rejects (a cycle) is not modelled. Json values have no cycles.
- Rendering and I/O:
  - `pct01` and all jsPDF/autoTable drawing in `exportPdf.ts`;
  - React rendering, state and effects;
  - Blob downloads.
- External services:
  - the language model and its prompts (`llm.py`, the LLM halves of the structured analyzer, planner and classifier, the summary, legal-question and open-risk tools);
  - the sentence encoder, FAISS and numpy;
  - HTTP routes, the database, JWT and bcrypt;
  - PDF loading (`load_contract`).
  Each of these is a parameter whose result is arbitrary, or is absent.
- The summary, full-risk and report-builder tools are pure composition of the above. The executor receives their results through its `run` parameter.
- Ranking.SortDesc: is proved to return a descending permutation. It is a stable insertion sort, like the engine's `Array.prototype.sort`, but stability is not stated as a contract.
- Workspace.ModeLabel and Workspace.ExplainMode: the `default` branches for a string outside the eight modes are not modelled, because `RunMode` is a closed datatype.
- VectorStore.VectorStore.Search: does not bound the result by `k`. The bound depends on the index returning at most `k` positions, which `knn` does not promise.
- Numbers are modelled as exact reals, not IEEE-754 doubles. Sums and thresholds are therefore exact in the model where the source rounds.
- ExecutiveSnapshot.RecLabel: is exact at its thresholds. `0.61 + 0.06` is `0.6699999999999999` in JavaScript, so a score of 0.61 with two missing clauses is "review" there but "high risk" in the model. The 0.34 threshold is exact in the same way.
- Formatters.EvidenceBands, Formatters.RiskBands and Formatters.QaWarningBands: compare exact reals at 0.45, 0.50, 0.60, 0.70 and 0.75. No arithmetic precedes these comparisons, so they can disagree with Python only for a value within one rounding step of a threshold.
- RiskDashboard.Round and RiskDashboard.Pct: scale by 100 exactly. A double such as 0.285 times 100 gives 28.499999999999996 in JavaScript and rounds to 28, where the model gives 29.
- RiskDashboardLib.CountBy: counts every key from 0, including keys of `Object.prototype`. In JavaScript `counts["constructor"]` starts as the `Object` function, so the count becomes the string "function Object() { [native code] }1", and a `"__proto__"` key is never stored as a count.
- RiskDashboardLib.CountByMeaning: holds of the model for every key. Of the source it holds only for keys that are not names of `Object.prototype` members, for the reason given on the line above.
- Strs.IsSpace: does not treat the separators `\x1c` to `\x1f` as white space. Python's `str.strip` removes them, while JavaScript's `trim` does not, and the model follows `trim` for both.
- Confidence.L2ToConfidence: takes `exp` as a parameter. A distance so negative that `math.exp` overflows raises OverflowError in Python, which the model does not capture.
- Json values keep one kind of number, so Python's `str(5)` and `str(5.0)` ("5" and "5.0") are both whatever the `num` rendering parameter gives.
- Storage.CodecLaw: `JSON.parse` and `JSON.stringify` are parameters, and the read-back clauses of the store hold for any pair meeting this law. The law asks for a round trip only of values JavaScript can hold: no NaN, finite doubles, each key once, and index keys first in ascending order. It does not model `JSON.parse` producing an infinity from text such as `1e400`, nor a session item whose `num_clauses` or `createdAt` is NaN or infinite, which `JSON.stringify` writes as `null`.
- Storage.SessionStore.SaveSessions: does not model the exception `localStorage.setItem` throws when the storage quota is exceeded.
- Formatters: only TypeError and AttributeError are told apart. Slicing a dict is modelled as TypeError, which is what Python before 3.12 raises; Python 3.12 raises KeyError there. `str()` and `repr()` of values are the `Render` parameters.
- Logging, timing, the CLI loop, the lock-protected upload-status dictionary and `tools/json_utils.py` are not part of this model.
