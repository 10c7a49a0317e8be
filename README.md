# PII_Detection: a Dafny model of the orchestration bookkeeping

PII_Detection extracts personally identifiable information from documents by
running a conversation with a chat model. A meta expert picks the next phase
(`extracting`, `verification`, `issues_solving`, `end`). Extraction, verification
and issue-solving prompts are generated, refined and cached. The findings are
kept in solution tables that are split by the verifier's verdicts, merged with
the issue-solving output, and shaped into records for the graph database and
the evaluation.

This project models that bookkeeping. Every reply of the chat model is an
arbitrary string returned by an oracle. `json.loads`, `json.dumps` and
`uuid4` are oracles as well. The oracles are held in a `Services` value that
the controllers carry. The dynamic controller's request texts (the extraction
request, the request for one solution, the issue request) are oracles of the
values they embed: the model fixes what goes into each request, not its
wording.

| file | module | models |
|---|---|---|
| `wrappers.dfy` | `Wrappers` | `Option`, `Result` and the Python exceptions that can be raised (`KeyError`, `ValueError`, `TypeError`, `AttributeError`, `IndexError`, `JSONDecodeError`, `UnboundLocalError`) |
| `json.dfy` | `Dicts`, `Json` | Python dicts as ordered association lists with assignment, lookup and `update`; JSON values with subscripting, iteration, truthiness and the `loads`/`dumps` oracles |
| `text.dfy` | `Text` | ASCII `lower` and `title` |
| `folds.dfy` | `Folds` | comprehensions whose element expressions may raise |
| `seqs.dfy` | `Seqs` | generic facts about sequence slicing and concatenation |
| `llm.dfy` | `Llm` | message assembly in `send_prompt_async`/`send_prompt_simple` and the four-tier `_extract_json_from_response` |
| `prompt_creator.dfy` | `PromptCreator` | `return_prompt`, `check_score`, the bounded `feedback_loop` and `process_feedback_loop` |
| `next_step.dfy` | `NextStep` | the `{"Next": ...}` extractors of both controllers and the quote repair |
| `meta_prompter.dfy` | `MetaPrompter` | the meta-prompting prompt lookup, `combine_issue_prompt_w_examples`, `combine_solutions_to_string` |
| `independent_solutions.dfy` | `IndependentSolutions` | the independent solution tables: uuid tagging, categorisation, the issue merge and `process_verification_results` |
| `individual_solutions.dfy` | `IndividualSolutions` | the per-person tables: `prepare_solution_for_verification`, `convert_list_solution_to_dict`, categorisation and `process_verification_results` |
| `utils.dfy` | `Utils` | cache paths, `get_property_information`, `split_text`, `set_prompts_argument` |
| `dynamic_conversation.dfy` | `DynamicConversation` | the `MetaExpertConversation` class of `llm_agents.py` |
| `static_conversation.dfy` | `StaticConversation` | the `MetaExpertConversation` class of `llm_agents_static.py` |
| `evaluation.dfy` | `Evaluation` | `prepare_evaluation.py`: character normalisation, identifier location, `combine`, `merge_overlapping_elements` |
| `propositions.dfy` | `Propositions` | the `AgenticChunker` chunk table |
| `entity_designation.dfy` | `EntityDesignation` | code routing and error numbering, location records and person–location links |
| `neo4j_records.dfy` | `Neo4jRecords` | `catch_key_exception` and the record building of `neo4j_conn.py` |
| `entities.dfy` | `Entities` | the `Dates` invariant and the initial fields of `Individual`, `Demographics` and `Organisation` |

Both controllers are classes. Their histories (`conversation_list`, `step_queue`,
`proposed_solutions`, `verify_solutions`, `generated_prompts` and the
`to_generate` flags) are fields that the methods append to. Each state-changing
method states its new state in terms of specification functions. The
properties the code promises are proved about those functions as lemmas.
Loops that the source writes as loops are `while` loops with invariants.
Each of them is proved against a function that specifies it.

Where the system's documented design and its code differ, the model follows
the code:

- The dynamic controller accepts only double-quoted `{"Next": ...}` decisions
  (`src/module/llm_agents.py:713-723`). Only the static controller also accepts
  single quotes and repairs them.
- A missing decision raises `ValueError`; there is no separate protocol-violation
  error. A verdict id without a proposal raises `KeyError`.
- On `end`, the static `generate_next_step` records the reply as held after the
  quote repair. When the repair ran, that is the requoted text and not the raw
  reply (`src/module/llm_agents_static.py:570-591`).
- The static controller does not force `extracting` as its first step. Its
  first step is the meta expert's decision (`src/module/llm_agents_static.py:594-617`).
- Nothing bounds the number of verification and issue-solving rounds. The
  conversation loops run until the model says `end`.

## Model

| member | source | states |
|---|---|---|
| Dicts.MapEntries | src/module/llm_agents.py:2309-2315 | a loop over a dict's entries that replaces each value succeeds exactly when every entry does, keeps the keys in order with each new value, and otherwise fails with the error of an entry all before which succeeded |
| Dicts.MapEntriesFirstError | src/module/llm_agents.py:2309-2315 | the loop's error is that of the first entry that fails |
| Json.PairOf | src/module/llm_agents.py:2306-2308 | an element `dict.update` takes as a pair is a two-item list with a string first item, a two-character string or a two-key dict; another length raises `ValueError`, a non-iterable `TypeError` |
| Json.PairsOf | src/module/llm_agents.py:2306-2308 | a list gives pairs exactly when every element is a pair, one per element in order; otherwise the error of an element all before which were pairs |
| Json.DictOf | src/module/llm_agents.py:2306-2308 | `dict.update` takes a dict's entries, a list's pairs, nothing from the empty string; another string raises `ValueError`, any other value `TypeError` |
| Json.PairListRoundTrip | src/module/llm_agents.py:2306-2308 | a dict's entries, given as a list of two-item lists, are taken back unchanged |
| Llm.SendPromptMessages | src/module/llm.py:126-128 | the request is the developer prompt as system message followed by every conversation entry, in order and unchanged |
| Llm.SendPrompt | src/module/llm.py:158-168 | the reply returned is the chat endpoint's answer to exactly that assembled request |
| Llm.SendPromptSimpleMessages | src/module/llm.py:185-190 | one system message, then one user message per prompt in the given order; nothing else |
| Llm.FirstBlock | src/module/llm.py:219 | a found block starts at the leftmost position where the pattern can match and closes at the first fence after the opener; none found means no block exists at or after the start |
| Llm.BlockGroup | src/module/llm.py:219 | `re.search(...).group(1)` is defined exactly when some block exists, and is then the text between the opener and the first closing fence of the leftmost block |
| Llm.Tier2From | src/module/llm.py:223-224 | the first element of `re.findall` for the tier-2 pattern: the leftmost start, and there the longest whitespace run that still ends in a newline; none found means no tier-2 match anywhere |
| Llm.ExtractJsonFromResponse | src/module/llm.py:217-239 | a parsable tier-1 block always wins; when tier 1 fails, a tier-2 match wins over the later tiers and gives its text; with neither, a parsable tier-3 block wins over the whole reply, which is parsed last; a raw string result is only returned when tier 1 failed and is the tier-2 text; any tier-2 match or a parsable whole reply guarantees success; a parsed result comes from tier 1, tier 3 or the whole reply; the call fails exactly when tiers 1 and 2 fail and the tier-3 and whole-reply parses fail too |
| Llm.Tier2Rescues | src/module/llm.py:222-225 | a reply with a tier-2 match never raises, whatever the parser says |
| Llm.Tier2TextMayKeepFence | src/module/llm.py:225 | removing every "```json" from "``````jsonjson" leaves "```json": the tier-2 text can still contain the fence it was meant to strip |
| PromptCreator.ReturnPrompt | src/module/llm_agents.py:165-181 | a prompt is returned exactly for the five known kinds; the example flag picks the example variant for extracting, verifying and issue prompts; feedback and incorporate prompts are fixed; any other kind yields `None` |
| PromptCreator.ReturnPromptIgnoresExample | src/module/llm_agents.py:178-181 | outside the three kinds with example variants, the example argument makes no difference |
| PromptCreator.ScoresSound | src/module/llm_agents.py:402 | every number found by the score scan stands at a position where `\b\d+/10\b` matches, and is the decimal value of that digit run |
| PromptCreator.CheckScoreIff | src/module/llm_agents.py:402-409 | the gate passes exactly when every score found reaches the cutoff; a text without any score passes |
| PromptCreator.CheckScoreFails | src/module/llm_agents.py:403-409 | one score below the cutoff anywhere fails the gate |
| PromptCreator.CheckScoreExample | src/module/llm_agents.py:402-409 | the critique "9/10 7/10" yields the scores 9 and 7 and fails the cutoff 8 |
| PromptCreator.FeedbackConversationTurns | src/module/llm_agents.py:436-474 | in the conversation, reply j is the assistant turn at position 1+2j, followed by the incorporate instruction after a critique and the feedback request after an improved prompt |
| PromptCreator.FeedbackConversationAppend | src/module/llm_agents.py:459-474 | one more reply extends the conversation by exactly its assistant turn and the matching follow-up |
| PromptCreator.LoopStateDone | src/module/llm_agents.py:453-486 | a loop that stopped after one to five rounds, with a passing last critique unless five rounds ran, is a complete feedback run |
| PromptCreator.CritiquesStep | src/module/llm_agents.py:453-483 | the loop continues only past failing critiques: every critique before the last fails the cutoff 8 |
| PromptCreator.FeedbackRound | src/module/llm_agents.py:459-484 | one pass of the loop body: the conversation gains the last critique and the incorporate instruction, then the improved prompt and the feedback request; both replies are the chat model's answers to the conversation sent |
| PromptCreator.FeedbackLoop | src/module/llm_agents.py:429-486 | 3, 5, 7, 9 or 11 replies, each the chat model's answer to the conversation before it; every critique but the last fails the cutoff 8; the last passes unless five rounds ran; the prompt returned is the last improved prompt |
| PromptCreator.ProcessFeedbackLoop | src/module/llm_agents.py:506-510 | with refinement off the prompt comes back unchanged; with it on, the result is the last improved prompt of a complete feedback run |
| NextStep.MatchAt | src/module/llm_agents.py:714 | at a given start the pattern `\{QNextQ:\s?Q\w+Q\}` matches in at most one way, and the function returns that match whenever one exists |
| NextStep.SearchFrom | src/module/llm_agents.py:718 | a found match starts at the leftmost position where the pattern matches; none found means no match at or after the start |
| NextStep.Search | src/module/llm_agents.py:718-720 | a text is found exactly when the reply holds a match, and it is the leftmost matched text |
| NextStep.ExtractNextStep | src/module/llm_agents.py:713-723 | the dynamic extractor succeeds exactly when a double-quoted decision occurs, returns the leftmost one, and raises `ValueError` otherwise |
| NextStep.ExtractNextStepEitherQuote | src/module/llm_agents_static.py:523-534 | the static extractor tries the double-quoted pattern first and the single-quoted one second; it fails with `ValueError` exactly when neither occurs |
| NextStep.EitherQuoteExtends | src/module/llm_agents_static.py:523-531 | whenever the dynamic extractor succeeds the static one returns the same text; the static one only adds single-quoted decisions |
| NextStep.LoadsToken | src/module/llm_agents.py:1962 | decoding a matched text gives a non-empty word of `\w` characters, or raises `JSONDecodeError` |
| NextStep.LoadsTokenAt | src/module/llm_agents.py:1962 | a match decodes exactly when its quotes are double and its optional separator is absent or JSON whitespace, and then yields the word between the value's quotes |
| NextStep.DecideNextStep | src/module/llm_agents.py:1962 | a decision taken by the dynamic controller is always a non-empty word |
| NextStep.RequoteIsReplace | src/module/llm_agents_static.py:574 | the repair is exactly `str.replace("'", '"')`: same length, every single quote turned into a double quote, every other character kept |
| NextStep.RequoteKeepsToken | src/module/llm_agents_static.py:574-575 | after the repair a match of either quote style is a double-quoted match at the same positions |
| NextStep.DecideNextStepRepairing | src/module/llm_agents_static.py:570-576 | a decision of the static controller is a non-empty word; the only errors are `ValueError` and `JSONDecodeError` |
| NextStep.RepairFindsToken | src/module/llm_agents_static.py:573-575 | once the first extraction found a decision, the retry after the repair always finds one too |
| NextStep.SingleQuotedMatchUndecodable | src/module/llm_agents_static.py:571-573 | a decision found only in single quotes never decodes, so the repair path is the only way it is accepted |
| NextStep.RequotedDoubleOnly | src/module/llm_agents_static.py:575 | after the repair both extractors return the same result |
| NextStep.NoTokenWithout | src/module/llm_agents.py:714 | a quote character absent from the reply rules out every match that uses it |
| NextStep.WholeToken | src/module/llm_agents.py:718-720 | a reply that is one whole match is its own leftmost match |
| NextStep.SingleQuotesRefused | src/module/llm_agents.py:713-723 | the dynamic controller refuses `{'Next': 'end'}` with `ValueError` |
| NextStep.SingleQuotedExtracted | src/module/llm_agents_static.py:523-531 | the static extractor finds `{'Next': 'end'}` as a whole |
| NextStep.SingleQuotedUndecodable | src/module/llm_agents_static.py:571 | that text does not decode |
| NextStep.DoubleQuotedRetry | src/module/llm_agents_static.py:574-575 | its repaired form is found and decodes to the word `end` |
| NextStep.SingleQuotesRepaired | src/module/llm_agents_static.py:570-576 | the static controller accepts `{'Next': 'end'}` and decides `end` |
| MetaPrompter.MetaReturnPrompt | src/module/llm_agents.py:688-694 | only `feedback` and `incorporate` name a prompt, each the corresponding general meta-prompting prompt; any other type yields `None` |
| MetaPrompter.CombineIssuePromptWithExamples | src/module/llm_agents.py:745-750 | the call succeeds exactly when the extraction prompt contains "## Examples"; the result is the issue prompt, a newline, and the extraction prompt from its first such heading to the end; otherwise `AttributeError` |
| MetaPrompter.CombinedPromptShape | src/module/llm_agents.py:750 | the combined prompt starts with the issue prompt and ends with a section that starts with the heading and is a suffix of the extraction prompt |
| MetaPrompter.CombineSolutionsToString | src/module/llm_agents.py:772-779 | the call succeeds exactly when the solutions are iterable and, without issue handling, all strings; the result joins the `json.dumps` renderings (issue handling) or the strings themselves with the separator; otherwise `TypeError` |
| MetaPrompter.StringSolutionsInterleave | src/module/llm_agents.py:778 | a single string passed as the solutions is joined character by character: "ab" becomes "a", separator, "b" |
| MetaPrompter.SingleSolutionUnchanged | src/module/llm_agents.py:778 | a list holding one string yields that string unchanged |
| IndependentSolutions.SolutionItems | src/module/llm_agents.py:1043 | the items of `solution["extracted_information"]` exist exactly when the key is there and its value iterable; a dict without the key raises `KeyError`, any other failure is `KeyError` or `TypeError` |
| IndependentSolutions.FreshlyTagged | src/module/llm_agents.py:1042-1048 | one entry per item, in order: item i, unchanged, under the id `uuid(next + i)` |
| IndependentSolutions.AddUuidToSolution | src/module/llm_agents.py:1042-1048 | succeeds exactly when `extracted_information` exists and is iterable, and then returns exactly the freshly tagged items; otherwise the items' error, `KeyError` or `TypeError` |
| IndependentSolutions.FreshIdsWellFormed | src/module/llm_agents.py:1043-1046 | when distinct draws give distinct ids, the tagged entries have no repeated key |
| IndependentSolutions.WithVerdictCovers | src/module/llm_agents.py:1118-1122 | every key of the verdict dict ends up in the correct or the wrong dict, and only those keys do |
| IndependentSolutions.WithVerdictDisjoint | src/module/llm_agents.py:1118-1122 | in a dict without repeated keys no id lands in both the correct and the wrong dict |
| IndependentSolutions.WithVerdictAgrees | src/module/llm_agents.py:1119-1122 | an id in the correct (wrong) dict has a true (false) `bool` verdict in the input |
| IndependentSolutions.WithVerdictWf | src/module/llm_agents.py:1115-1122 | each side of a dict without repeated keys has no repeated key |
| IndependentSolutions.WithVerdictMembers | src/module/llm_agents.py:1120-1122 | every entry of either side is an entry of the input, value unchanged |
| IndependentSolutions.WithVerdictGet | src/module/llm_agents.py:1120-1122 | an id on either side keeps the value it has in the input |
| IndependentSolutions.Partition | src/module/llm_agents.py:1115-1124 | the loop succeeds exactly when every value has a usable `bool` field, and then returns the correct and the wrong entries in input order; otherwise `KeyError` or `TypeError` |
| IndependentSolutions.PartitionSplitsKeys | src/module/llm_agents.py:1118-1122 | every id is on exactly one side, the one its verdict names |
| IndependentSolutions.CategorizeSolutions | src/module/llm_agents.py:1115-1124 | undecodable text raises `JSONDecodeError`, a decoded non-dict `AttributeError`; a decoded dict is partitioned by its verdicts |
| IndependentSolutions.Unflagged | src/module/llm_agents.py:1189 | `value.pop("bool", None)` on a dict removes `bool` and keeps every other field |
| IndependentSolutions.LastWithUnflagged | src/module/llm_agents.py:1187-1190 | the last value assigned to an id after removing `bool` is the last value before, without `bool` |
| IndependentSolutions.MergeIssueSolutions | src/module/llm_agents.py:1183-1191 | the merge succeeds exactly when every new and correct value is a dict; the table is the new solutions then the correct ones assigned in order, each without `bool` |
| IndependentSolutions.MergedTable | src/module/llm_agents.py:1183-1191 | the merged table has no repeated id and holds exactly the new and the correct ids; a correct solution's id holds that solution (correct entries are written last), any other id the last new value; no value keeps a `bool` field |
| IndependentSolutions.PopError | src/module/llm_agents.py:1188-1189 | when some value is not a dict, `value.pop` fails with `TypeError` or `AttributeError` |
| IndependentSolutions.PopErrorAt | src/module/llm_agents.py:1187-1189 | the merge's error is that of the first value that is not a dict |
| IndependentSolutions.Merged | src/module/llm_agents.py:1183-1191 | the merged table exists exactly when every new and correct value is a dict; otherwise `TypeError` or `AttributeError` |
| IndependentSolutions.ReplyItems | src/module/llm_agents.py:1176-1178 | a reply without extractable JSON raises `JSONDecodeError`; the items exist exactly when the JSON has iterable `extracted_information` |
| IndependentSolutions.IssueSolutions | src/module/llm_agents.py:1170-1191 | a reply whose items cannot be read fails with that error |
| IndependentSolutions.IssueDraws | src/module/llm_agents.py:1176-1178 | a reply whose items cannot be read draws no id |
| IndependentSolutions.IssueSolutionsTable | src/module/llm_agents.py:1176-1191 | the merged table is a proper dict whose ids are exactly the freshly tagged ones and the correct ones; a correct solution keeps its value without `bool`, a new one takes its last tagged value without `bool`; no value has `bool` |
| IndependentSolutions.SendIssuePrompt | src/module/llm_agents.py:1170-1191 | the result is the issue table of the chat reply to the request, and the ids drawn are one per item of the reply; a reply without extractable JSON raises `JSONDecodeError` |
| IndependentSolutions.Listed | src/module/llm_agents.py:2293-2296 | a list of proposals is kept, a dict becomes one single-entry dict per entry in order, anything else raises `AttributeError` |
| IndependentSolutions.ProposalOf | src/module/llm_agents.py:2298-2303 | a proposal is recorded under the first key of its dict |
| IndependentSolutions.ProposalsFromUpdate | src/module/llm_agents.py:2297-2303 | the proposal table is built exactly when every proposal is recordable, and is then their records assigned in order |
| IndependentSolutions.Proposals | src/module/llm_agents.py:2292-2303 | the loop computes that proposal table |
| IndependentSolutions.VerdictsFromWf | src/module/llm_agents.py:2304-2308 | merging the parsed verdict replies never produces a repeated id |
| IndependentSolutions.Verdicts | src/module/llm_agents.py:2304-2308 | the loop parses every verdict reply and merges the pairs `dict.update` takes from each, in order |
| IndependentSolutions.CopiedGet | src/module/llm_agents.py:2309-2315 | after copying, each copied field holds the proposal's value and every other field keeps the verdict's |
| IndependentSolutions.CopiedWf | src/module/llm_agents.py:2310-2315 | copying fields never creates a repeated key |
| IndependentSolutions.CopyFrom | src/module/llm_agents.py:2310-2315 | the field assignments succeed exactly when the proposal has every field and the verdict is a dict; the verdict then holds the copied fields |
| IndependentSolutions.AnnotateEntry | src/module/llm_agents.py:2309-2315 | one verdict is annotated exactly when a proposal with its id exists and can be copied from; a missing id raises `KeyError` |
| IndependentSolutions.Annotate | src/module/llm_agents.py:2309-2315 | succeeds exactly when every verdict can be annotated; the result keeps the verdict ids in order, each value annotated from the proposal with that id; an error is the error of some verdict |
| IndependentSolutions.ProcessedVerdicts | src/module/llm_agents.py:2292-2316 | a proposal argument without `.items()` raises `AttributeError` |
| IndependentSolutions.ProcessVerificationResults | src/module/llm_agents.py:2292-2316 | the result is the specified table of processed verdicts; in particular a proposal argument without `.items()` raises `AttributeError`; on success the result has exactly the merged verdict ids, each annotated with `identifier` and `context` from its proposal; a verdict id with no proposal makes the call fail |
| IndividualSolutions.PrepareSolutionForVerification | src/module/llm_agents.py:1474-1483 | the loop succeeds exactly when the solution text parses to a dict whose values can be visited, and then returns one row `{person: item}` per item, persons in order and items in order; a falsy value adds nothing |
| IndividualSolutions.PairsFromLookup | src/module/llm_agents.py:1476-1482 | grouped back by person, the rows of person `k` are exactly the items listed under `k` |
| IndividualSolutions.ConvertListSolutionToDict | src/module/llm_agents.py:1563-1573 | succeeds exactly when every row is a non-empty dict; the result's keys are the union of all row keys and each key lists, in row order, the first-key values of the rows whose first key it is; a non-dict row raises `AttributeError` before an empty dict raises `IndexError` |
| IndividualSolutions.CollectKeys | src/module/llm_agents.py:1564-1568 | the first pass returns the union of every row's keys, or `AttributeError` when a row is not a dict |
| IndividualSolutions.GroupRows | src/module/llm_agents.py:1569-1571 | the second pass succeeds exactly when no row is empty, keeps the key set and groups each row's first value under its first key |
| IndividualSolutions.PreparedRegroups | src/module/llm_agents.py:1474-1483 | preparing a solution and converting its rows back is a round trip: the persons that come back are exactly those with a truthy list, each with its items in order |
| IndividualSolutions.IdKey | src/module/llm_agents.py:1426 | a string id is a key as it is, a list or dict id is unhashable (`TypeError`), and any other scalar id is a key no string verdict key can name |
| IndividualSolutions.AddProposal | src/module/llm_agents.py:1425-1434 | one comprehension step succeeds only when the item has an id and the record fields, and then writes the record under a string id |
| IndividualSolutions.ProposalTableShape | src/module/llm_agents.py:1425-1434 | the proposal table has no repeated id, keeps the ids it had, and holds every item's string id |
| IndividualSolutions.VerdictTableFrom | src/module/llm_agents.py:1435-1439 | the verdict table built from the replies, later replies winning, never has a repeated key when it starts without one |
| IndividualSolutions.SortVerdicts | src/module/llm_agents.py:1441-1455 | the loop computes the specified sorting of the verdicts |
| IndividualSolutions.SortedCorrected | src/module/llm_agents.py:1444-1447 | the corrected list is the identifiers of the verdicts whose `bool` holds, in verdict order |
| IndividualSolutions.SortedIncorrect | src/module/llm_agents.py:1448-1454 | an id is in the incorrect dict exactly when it was before or its verdict's `bool` fails; existing entries are left alone and no key repeats |
| IndividualSolutions.SortMissingProposal | src/module/llm_agents.py:1445-1446 | a verdict whose id no proposal carries makes the loop fail |
| IndividualSolutions.IncorrectFromProposals | src/module/llm_agents.py:1449-1454 | every incorrect entry carries the identifier, context and person of the proposal with its id |
| IndividualSolutions.CategorizeSolutions | src/module/llm_agents.py:1424-1455 | the method computes the specified categorisation |
| IndividualSolutions.CategorizedPartition | src/module/llm_agents.py:1424-1455 | on success every verdict id names a proposal and has a `bool`; the corrected list is the holding verdicts' identifiers, an id is incorrect exactly when its `bool` is falsy, and each incorrect entry agrees with its proposal |
| IndividualSolutions.PersonSolutions | src/module/llm_agents.py:2370-2372 | a `None` value is skipped, any other value is iterated |
| IndividualSolutions.AddPersonProposal | src/module/llm_agents.py:2373-2378 | one assignment succeeds only when the solution has the four fields, and then records reasoning, identifier, context and person under a string id; failures are `KeyError` or `TypeError` |
| IndividualSolutions.PersonTableGood | src/module/llm_agents.py:2368-2378 | the proposal table has no repeated id and every record carries the copied fields |
| IndividualSolutions.EnterPersonSolutions | src/module/llm_agents.py:2372-2378 | the inner loop enters one person's solutions in order |
| IndividualSolutions.PersonProposals | src/module/llm_agents.py:2368-2378 | the outer loop tables every person's solutions by solution id |
| IndividualSolutions.ProcessVerificationResults | src/module/llm_agents.py:2368-2394 | a non-dict argument raises `AttributeError`; on success the result has exactly the merged verdict ids, each annotated with `person_uuid`, `identifier` and `context` from its proposal, and it succeeds exactly when every verdict id names a proposal and every verdict is a dict |
| Utils.PathJoin | src/module/utils.py:223-227 | an absolute second part replaces the first; otherwise the result is the first part, at most one `/`, then the second part |
| Utils.CacheFileInFolder | src/module/utils.py:193-199 | the folder made by `create_folder_to_save` (lines 223-227) is the directory of the file `check_if_file_exists` looks for, for plain names |
| Utils.GetPropertyInformation | src/module/utils.py:67 | succeeds exactly when the configuration is a dict holding the property; the result is a one-entry dict with that property's value; a missing property raises `KeyError` |
| Utils.Kept | src/module/utils.py:302 | the kept paragraphs are exactly the paragraphs not on the ignore list, never more of them |
| Utils.KeptConcat | src/module/utils.py:302 | filtering distributes over concatenation, so the kept paragraphs keep their order |
| Utils.KeptNothingIgnored | src/module/utils.py:302 | with nothing to ignore every paragraph is kept |
| Utils.GroupsCount | src/module/utils.py:303-306 | there are `ceil(m / k)` chunks for `m` paragraphs |
| Utils.GroupAt | src/module/utils.py:303-306 | chunk `j` joins the paragraphs from `j*k` up to `j*k + k` or the end |
| Utils.JoinGroups | src/module/utils.py:303-306 | joining the chunks with blank lines gives the kept paragraphs joined with blank lines |
| Utils.SplitText | src/module/utils.py:300-308 | a chunk size of zero raises `ValueError` (from `range`) and only then; a negative size yields no chunks |
| Utils.SplitTextChunks | src/module/utils.py:300-308 | for a positive size the chunks are the kept paragraphs grouped `k` at a time: `ceil(m / k)` of them, and together they hold exactly the kept text |
| Utils.SplitTextRejoins | src/module/utils.py:300-308 | when nothing is ignored, joining the chunks with blank lines gives back the text |
| Utils.PromptPath | src/module/utils.py:152-157 | a prompt file name must be a string (`TypeError` otherwise); the path is folder, category, subcategory and file name joined |
| Utils.Store | src/module/utils.py:158-159 | the assignment succeeds exactly for a subcategory of `meta_prompting`, writes the prompt there, keeps the dictionary's shape and leaves every other subcategory alone; anything else raises `KeyError` |
| Utils.ConfigEntry | src/module/utils.py:150-151 | a config entry gives a name and a file exactly when it is a non-empty dict, and they are its first entry |
| Utils.PromptsFromConfig | src/module/utils.py:147-161 | a configuration without `.items()` raises `AttributeError`; a built dictionary keeps the two-level shape |
| Utils.SetPromptsArgument | src/module/utils.py:138-161 | the triple loop computes the specified prompt dictionary, which keeps its two-level shape |
| Utils.EmptyPromptDictShaped | src/module/utils.py:138-146 | the starting dictionary has the two levels of keys with every subcategory empty |
| Utils.StoreHit | src/module/utils.py:158-159 | storing into a `meta_prompting` subcategory always succeeds and puts the prompt there |
| Utils.SinglePromptStored | src/module/utils.py:138-161 | a configuration with one prompt stores the file's text under its name in its subcategory |
| Utils.LinkingEntryRejected | src/module/utils.py:145-159 | the `linking` category starts empty, so any entry configured under it raises `KeyError` |
| DynamicConversation.UnpackPair | src/module/llm_agents.py:2063-2066 | unpacking a string into two names succeeds exactly for a string of two characters, and splits it into them; any other length raises `ValueError` |
| DynamicConversation.VerifyingPromptAsWritten | src/module/llm_agents.py:2056-2068 | without refinement the created prompt is kept; with refinement the call fails exactly when the refined prompt is not two characters long |
| DynamicConversation.VerifyingPromptAsWrittenLosesRefinement | src/module/llm_agents.py:2062-2068 | with refinement on, the stored prompt is never the refined prompt, and any refined prompt not two characters long raises `ValueError` |
| DynamicConversation.VerifyingPromptAsWrittenExample | src/module/llm_agents.py:2062-2066 | an ordinary refined prompt makes `create_verifying_prompt` raise `ValueError` |
| DynamicConversation.IssuePromptAsWritten | src/module/llm_agents.py:2089-2100 | the issue prompt is stored exactly when refinement is off; with refinement on the wrong keyword always raises `TypeError` |
| DynamicConversation.ReplacementText | src/module/llm_agents.py:1912-1915 | `str.replace` accepts exactly a string replacement and inserts it; any other value raises `TypeError` |
| DynamicConversation.ExtractInstruction | src/module/utils.py:273-277 | a text without the `job description` head yields `None`; the only error is `JSONDecodeError` |
| DynamicConversation.Expert | src/module/llm_agents.py:1896-1907 | an undecodable last message raises `JSONDecodeError`; a present `job description` is used; otherwise the expert is the nested `Instructions` entry when the first lookup raised `KeyError`, or what `extract_instruction` finds when the message is not a dict |
| DynamicConversation.ReplaceAbsent | src/module/llm_agents.py:1912-1915 | a placeholder that does not occur leaves the prompt as it is |
| DynamicConversation.NextInstructionPlain | src/module/llm_agents.py:1911-1915 | a template without placeholders is sent as it is |
| DynamicConversation.ResponseTag | src/module/llm_agents.py:1927-1932 | a match is found exactly when an opening tag is followed by a closing tag, and the text is what lies between the first opening tag and the first closing tag after it |
| DynamicConversation.ConstructLastStep | src/module/llm_agents.py:1927-1941 | the prompt is built exactly when the last message has a tagged response, and then has the previous step and that response put in; otherwise `UnboundLocalError` |
| DynamicConversation.NextDecision | src/module/llm_agents.py:1957-1962 | a decided step is a non-empty word; a last message without a tagged response raises `UnboundLocalError` |
| DynamicConversation.EndConversation | src/module/llm_agents.py:2206-2215 | with no verification the result is `{}`; otherwise the last proposal is decoded, a list kept as it is and a dict turned into one single-entry dict per entry in order; a missing proposal raises `IndexError`, any other decoded value `AttributeError` |
| DynamicConversation.EndConversationKeepsEntries | src/module/llm_agents.py:2213-2215 | reading the first entry of each single-entry dict back gives the proposal's dict |
| DynamicConversation.ListingListed | src/module/llm_agents.py:2035 | a tagged listing stored as a proposal and read back is returned unchanged |
| DynamicConversation.StartMetaExpert | src/module/llm_agents.py:649-669 | the meta expert is started exactly when the property is configured and its reply holds JSON; else `KeyError`, `TypeError` or `JSONDecodeError`; the returned user prompt describes the property's entry |
| DynamicConversation.ExtractWithPrompt | src/module/llm_agents.py:1008-1023 | a missing property or description raises that lookup's error; errors are `KeyError`, `TypeError` or `JSONDecodeError`; the result is rendered JSON |
| DynamicConversation.CachedPrompt | src/module/llm_agents.py:1759-1776 | a cached prompt is loaded, at most one per type, exactly when loading is on and its file can be read |
| DynamicConversation.Description | src/module/llm_agents.py:2129-2138 | the description is `get_property_information(...)[pii]["description"]`, and fails with the configuration lookup's error |
| DynamicConversation.VerificationReplies | src/module/llm_agents.py:1078-1096 | an undecodable proposal raises `JSONDecodeError`; otherwise there is one reply per solution the decoded proposal iterates to, in order, each the chat reply to that solution's own request |
| DynamicConversation.SendSolutionsForVerification | src/module/llm_agents.py:1078-1096 | the loop sends one request per solution and collects exactly the specified replies |
| DynamicConversation.VerificationOutcome | src/module/llm_agents.py:2129-2146 | the configuration is read first and its error wins; then no proposal raises `IndexError`; an undecodable proposal raises `JSONDecodeError` |
| DynamicConversation.VerifyProposal | src/module/llm_agents.py:2129-2146 | the verdict table is exactly the outcome specified: the replies of the last verifying prompt to the last proposal's solutions, processed against that proposal |
| DynamicConversation.IssueSolvedKeepsCorrect | src/module/llm_agents.py:2174-2182 | a solved proposal is a proper dict that keeps every solution judged correct, without `bool`, and no value in it has `bool` |
| DynamicConversation.SolveIssuesFor | src/module/llm_agents.py:2174-2182 | no verdicts raises `IndexError`, undecodable ones `JSONDecodeError`; on success the result is the issue table of the reply to the correct and wrong sides of the last verdicts |
| DynamicConversation.Conversation.constructor | src/module/llm_agents.py:1592-1636 | a new conversation starts empty, keeps its settings, and sets a type's generate flag exactly when new prompts are asked for or that type's cache file is missing; the cached prompts are loaded otherwise |
| DynamicConversation.Conversation.LoadGeneratedPrompts | src/module/llm_agents.py:1759-1776 | each readable cached prompt is appended to its type and an unreadable one sets that type's flag |
| DynamicConversation.Conversation.AddNextStepMeta | src/module/llm_agents.py:1896-1919 | succeeds exactly when the last message names an expert; it then appends one user message, the next-instruction prompt filled in with the expert, the previous step and the response; a failure leaves the conversation unchanged |
| DynamicConversation.Conversation.OpenConversation | src/module/llm_agents.py:1795-1803 | succeeds exactly when the meta expert starts, and then appends the description and the instructions |
| DynamicConversation.Conversation.AddGeneratedPrompt | src/module/llm_agents.py:1805-1819 | appends exactly one prompt, generated from the instructions and refined when refinement is on, to its type's prompts, and leaves the other types alone |
| DynamicConversation.Conversation.StartConversation | src/module/llm_agents.py:1795-1828 | on success two messages are appended, one extraction prompt is added when it is flagged, and `extracting` is queued; the other types' prompts are untouched |
| DynamicConversation.Conversation.RecordExtraction | src/module/llm_agents.py:2024-2035 | the reply to the last extraction prompt is appended to the responses; on success the returned table is the decoded reply's items freshly tagged from the ids drawn so far, it is appended, rendered as a list of single-entry dicts, as one new proposal, and one id is drawn per entry; a failed extraction changes neither history |
| DynamicConversation.Conversation.RunExtraction | src/module/llm_agents.py:2024-2040 | on success exactly one response, one proposal and one message are appended and nothing before them changes |
| DynamicConversation.Conversation.CreatePromptFromConversation | src/module/llm_agents.py:2056-2104 | the corrected `create_verifying_prompt` and `create_issue_prompt`: succeeds exactly when the last message decodes, then appends one prompt of that type and leaves the other types alone |
| DynamicConversation.Conversation.GenerateIfFlagged | src/module/llm_agents.py:2122-2127 | a flagged prompt type is generated, so that on success a prompt of that type exists; an unflagged type or a failure leaves the prompts alone; other types are never touched |
| DynamicConversation.Conversation.RecordVerification | src/module/llm_agents.py:2129-2146 | with no proposal the call fails; on success the last proposal decodes to a list or dict, and the returned verdicts are appended as one entry; a failure changes nothing |
| DynamicConversation.Conversation.VerifySolution | src/module/llm_agents.py:2122-2150 | with no proposal the call fails; on success exactly one verdict entry and one message are appended |
| DynamicConversation.Conversation.RecordIssueSolutions | src/module/llm_agents.py:2173-2183 | with no verdicts the call raises `IndexError`, with undecodable ones `JSONDecodeError`; on success the returned table is appended, rendered, as one proposal; a failure changes no proposal |
| DynamicConversation.Conversation.SolveIssues | src/module/llm_agents.py:2166-2188 | with no verdicts the call fails; on success exactly one proposal and one message are appended |
| DynamicConversation.Conversation.TakeNextStep | src/module/llm_agents.py:1840-1852 | an empty queue raises `IndexError` and an unknown step `ValueError`; `end` returns the conversation's result and changes nothing; the three phases run their step |
| DynamicConversation.Conversation.QueueNextStep | src/module/llm_agents.py:1957-1963 | succeeds exactly when a next step can be decided from the last message, and then queues exactly that step; a failure leaves the queue unchanged |
| DynamicConversation.Conversation.AppendInstructions | src/module/llm_agents.py:1986-2005 | succeeds exactly when the meta expert's answer to the last six messages holds JSON, and then appends that JSON rendered as an assistant message |
| DynamicConversation.Conversation.GenerateNextStep | src/module/llm_agents.py:1984-2005 | after `end` nothing changes; otherwise one step is queued and the meta expert's instructions are appended |
| DynamicConversation.Conversation.Round | src/module/llm_agents.py:1677-1679 | one round takes the queued step and queues the next one |
| DynamicConversation.Conversation.FinishConversation | src/module/llm_agents.py:1681 | the last `take_next_step` on `end` returns the conversation's result and changes no history |
| DynamicConversation.Conversation.RunRounds | src/module/llm_agents.py:1677-1679 | rounds run until `end` is queued; the queue only grows, and every step from the first pending one up to `end` is a known step |
| DynamicConversation.Conversation.ConversationLoop | src/module/llm_agents.py:1676-1681 | on success the steps this run queued start with `extracting`, end with `end` and are known steps, and the result is what `end` yields |
| StaticConversation.FileType | src/module/llm_agents_static.py:71 | a file name has a type exactly when it holds `_`, and the type holds no `.`; otherwise `IndexError` |
| StaticConversation.FileTypeOfCacheName | src/module/llm_agents_static.py:71 | a cache file name `<pii>_<type>.<ending>` is read back as its type |
| StaticConversation.LoadFromFails | src/module/llm_agents_static.py:70-74 | loading fails exactly when some listed name has no `_`, and then with `IndexError` |
| StaticConversation.LoadFromLast | src/module/llm_agents_static.py:70-74 | after loading, a type holds the text of the last listed file of that type, a type no file names keeps its value, and no other key appears |
| StaticConversation.Loaded | src/module/llm_agents_static.py:42-46 | a prompt can be sent exactly when its type was loaded; a never-loaded type is still `None` |
| StaticConversation.RecordedReplyDecides | src/module/llm_agents_static.py:570-591 | the step decided is what the recorded reply, after the quote repair, decides again |
| StaticConversation.PersonsOf | src/module/llm_agents_static.py:183-186 | the persons can be visited exactly when the reply holds JSON with an iterable `Persons` entry; errors are `JSONDecodeError`, `KeyError` or `TypeError` |
| StaticConversation.FreshPersonsListed | src/module/llm_agents_static.py:186-187 | with distinct ids every person gets its own entry under the next id, in order |
| StaticConversation.TaggedPersonsKeys | src/module/llm_agents_static.py:186-187 | every key of the tagged table is one of the ids drawn |
| StaticConversation.TagPersons | src/module/llm_agents_static.py:186-187 | the loop stores each person under the next id drawn |
| StaticConversation.AddUuidToPerson | src/module/llm_agents_static.py:178-189 | succeeds exactly when the persons can be visited; the table then tags each person with a fresh id and exactly one id is used per person; on failure no id is used |
| StaticConversation.FullName | src/module/llm_agents_static.py:283-286 | `full name` is used when present; a dict without it falls back to `full_name`; a non-dict raises `TypeError` |
| StaticConversation.AnnotatePerson | src/module/llm_agents_static.py:281-288 | a verdict id without a proposal raises `KeyError`; one verdict is annotated exactly when its proposal has the copied fields and the verdict is a dict |
| StaticConversation.AnnotatedPersonFields | src/module/llm_agents_static.py:284-288 | the annotated verdict holds the proposal's name, abbreviations and aliases, and every other field keeps the verdict's value |
| StaticConversation.AnnotatePersons | src/module/llm_agents_static.py:281-288 | succeeds exactly when every verdict can be annotated, keeps the verdict keys in order, and fails with the first verdict's error otherwise |
| StaticConversation.ProcessVerificationResults | src/module/llm_agents_static.py:272-290 | a reply that cannot be merged is that error; on success the result has exactly the verdict keys, each annotated from its proposal; a verdict id without a proposal makes the call fail |
| StaticConversation.Stripped | src/module/llm_agents_static.py:340-341 | a dict loses `reasoning` and `bool` and keeps every other field; a non-dict is unchanged |
| StaticConversation.StrippedAllGet | src/module/llm_agents_static.py:340-342 | stripping every value keeps the keys and keeps a dict without repeated keys so, each value stripped |
| StaticConversation.PartitionPersons | src/module/llm_agents_static.py:338-344 | succeeds exactly when every entry has a usable `bool`; it then returns the correct persons, stripped, and the wrong ones; errors are `KeyError` or `TypeError` |
| StaticConversation.CategorizedPersons | src/module/llm_agents_static.py:335-346 | every key is in exactly one table, the one its `bool` names; a correct person is its verdict stripped, a wrong one its verdict as it was |
| StaticConversation.CategorizeSolutions | src/module/llm_agents_static.py:335-346 | no verdicts raises `IndexError`, undecodable ones `JSONDecodeError`, a non-dict `AttributeError`; on success the verdict entries are split by their `bool` |
| StaticConversation.MergePersons | src/module/llm_agents_static.py:394-396 | every tagged person is assigned into the correct persons in order |
| StaticConversation.MergeIssueReply | src/module/llm_agents_static.py:391-396 | succeeds exactly when the issue reply's persons can be visited; they are then tagged with fresh ids and assigned into the correct persons, one id drawn per person |
| StaticConversation.SolvedProposal | src/module/llm_agents_static.py:386-398 | the new proposal has no repeated key; its keys are the correct persons' and the drawn ids; a drawn id holds its tagged person and any other key its stripped verdict; a wrong person is gone unless an id is drawn again |
| StaticConversation.EndConversation | src/module/llm_agents_static.py:478-480 | with no verification the result is `{}`; otherwise it is the last proposal, or `IndexError` when there is none |
| StaticConversation.VerificationReplies | src/module/llm_agents_static.py:246-262 | one reply per proposed person, in order, each sent with the verifying prompt; no person sends nothing; an unloaded verifying prompt fails the call |
| StaticConversation.SolveIssuesFor | src/module/llm_agents_static.py:386-398 | no verdicts raises `IndexError`, undecodable ones `JSONDecodeError`; on success the result is the correct persons merged with the issue reply's freshly tagged persons |
| StaticConversation.Conversation.constructor | src/module/llm_agents_static.py:31-46 | a new controller has empty histories, no id drawn and no prompt loaded |
| StaticConversation.Conversation.LoadGeneratedPrompts | src/module/llm_agents_static.py:65-74 | succeeds exactly when every listed name has `_`, and then assigns every file's text to its type in listing order; otherwise `IndexError` |
| StaticConversation.Conversation.AddNextStepMeta | src/module/llm_agents_static.py:450-458 | appends exactly one user message, the next-step prompt filled in with the previous action and the response |
| StaticConversation.Conversation.RecordExtraction | src/module/llm_agents_static.py:205-227 | an unloaded extraction prompt fails the call; otherwise the reply is kept and its persons, tagged with fresh ids, become one new proposal |
| StaticConversation.Conversation.ExtractIndividuals | src/module/llm_agents_static.py:205-230 | on success exactly one proposal and one message, naming the tagged persons, are appended; a failure changes neither |
| StaticConversation.Conversation.SendSolutionsForVerification | src/module/llm_agents_static.py:232-262 | with no proposal the call raises `IndexError`; otherwise the replies are the specified per-person replies, in order |
| StaticConversation.Conversation.RecordVerification | src/module/llm_agents_static.py:305-316 | with no proposal the call raises `IndexError`; on success the replies are the specified per-person replies, the result has exactly the merged verdict keys, each verdict annotated with the name, abbreviations and aliases of the last proposal's person with that id, and it is appended as one entry; a failure changes nothing |
| StaticConversation.Conversation.VerifySolution | src/module/llm_agents_static.py:292-317 | on success exactly one verdict entry and one message naming it are appended; a failure changes neither |
| StaticConversation.Conversation.RecordIssueSolutions | src/module/llm_agents_static.py:386-398 | no verdicts raises `IndexError`, undecodable ones `JSONDecodeError`; on success the new proposal is appended and is the specified solved proposal |
| StaticConversation.Conversation.SolveIssues | src/module/llm_agents_static.py:371-400 | on success exactly one proposal and one message naming it are appended; a failure changes neither |
| StaticConversation.Conversation.TakeNextStep | src/module/llm_agents_static.py:492-504 | an empty queue raises `IndexError` and an unknown step `ValueError`; `end` returns the conversation's result and changes nothing; the three phases run their step |
| StaticConversation.Conversation.DecideNextStep | src/module/llm_agents_static.py:551-592 | the meta expert's reply is read for a step, repairing single quotes once; the step is queued, and the transcript gets `Next step: ...` for a step other than `end` and the reply itself for `end` |
| StaticConversation.Conversation.GenerateNextStep | src/module/llm_agents_static.py:536-592 | on success exactly one step is queued; a failure changes neither queue nor transcript |
| StaticConversation.Conversation.Round | src/module/llm_agents_static.py:609-611 | one round takes the pending step and decides the next one |
| StaticConversation.Conversation.FinishConversation | src/module/llm_agents_static.py:613 | `take_next_step` on `end` always yields the conversation's result and changes no history |
| StaticConversation.Conversation.RunRounds | src/module/llm_agents_static.py:609-611 | rounds run until `end` is decided; the queue only grows and every step from the first pending one up to `end` is a known step |
| StaticConversation.Conversation.ConversationLoop | src/module/llm_agents_static.py:594-617 | on success the steps this run decided end with `end` and are known steps, and the result is what `end` yields |
| StaticConversation.Open | src/module/llm_agents_static.py:23-48 | a controller is built exactly when every prompt file name has `_`, otherwise `IndexError`; a built one is fresh and valid |
| Evaluation.ReplaceCharactersNormalizes | src/evaluate/prepare_evaluation.py:22-29 | the normalised text holds none of `“`, `”`, `’`, NBSP and soft hyphen |
| Evaluation.ReplaceCharactersKeepsNormalized | src/evaluate/prepare_evaluation.py:22-29 | a text free of the five characters is left as it is |
| Evaluation.ReplaceCharactersIdempotent | src/evaluate/prepare_evaluation.py:22-29 | normalising twice is normalising once |
| Evaluation.NormalizedSourceIsNormalized | src/evaluate/prepare_evaluation.py:90-92 | the two extra replacements on the source text change nothing, so the searched text is the normalised text |
| Evaluation.RemoveFirstLastCharacter | src/evaluate/prepare_evaluation.py:73 | the result has length `max(0, n - 2)` and is the text without its first and last character |
| Evaluation.FindAllSound | src/evaluate/prepare_evaluation.py:122 | every span `finditer` yields for a literal pattern is a match inside the text |
| Evaluation.FindAllOrdered | src/evaluate/prepare_evaluation.py:122 | the spans come in text order and do not overlap |
| Evaluation.FindAllComplete | src/evaluate/prepare_evaluation.py:122 | no match of a non-empty pattern is missed: each lies inside a found span |
| Evaluation.NamePatternsMembers | src/evaluate/prepare_evaluation.py:96-119 | a name is searched exactly when it is a non-empty full name, a non-empty abbreviation, or a non-empty alias other than `applicant` and `the applicant` in any case |
| Evaluation.PersonHitsSpec | src/evaluate/prepare_evaluation.py:95-129 | a person's hits carry its uuid and are matches of one of its searched names, and every match of those names is found |
| Evaluation.ContextSpan | src/evaluate/prepare_evaluation.py:135-140 | corrected: a missing or empty context counts as not found, so the whole text is searched; a non-empty context is searched as written |
| Evaluation.RecordHitsAgree | src/evaluate/prepare_evaluation.py:94-165 | the corrected and the as-written record hits agree on every person and on every code record with a non-empty context |
| Evaluation.EmptyContextFindsNothing | src/evaluate/prepare_evaluation.py:135-143 | as written, a code record without a context never finds its non-empty identifier, whatever the text |
| Evaluation.EmptyContextExample | src/evaluate/prepare_evaluation.py:135-143 | identifier `X1` with no context in the text `X1`: as written nothing is found, corrected one hit at 0..2 |
| Evaluation.CodeHitsBlank | src/evaluate/prepare_evaluation.py:131-133 | a code record whose identifier is empty or whitespace contributes nothing |
| Evaluation.CodeHitsInWindow | src/evaluate/prepare_evaluation.py:139-151 | with a context span inside the text, each hit is a match of the identifier lying inside the span, with offsets made absolute |
| Evaluation.CodeHitsInText | src/evaluate/prepare_evaluation.py:152-163 | without a context span the whole text is searched and the hits are exactly the identifier's matches |
| Evaluation.ContextSpanSound | src/evaluate/prepare_evaluation.py:136-140 | a found context span lies inside the text |
| Evaluation.CodeHitsSpec | src/evaluate/prepare_evaluation.py:131-165 | each hit of a code record carries its uuid and is a match of the normalised identifier, inside the context's span when one was found |
| Evaluation.AllHitsMembers | src/evaluate/prepare_evaluation.py:94-165 | a hit is collected exactly when one of the records produced it |
| Evaluation.LocateIdentifiers | src/evaluate/prepare_evaluation.py:76-170 | corrected for a missing context (see Findings): the result is keyed by the document id and lists one `{uuid: [start, end]}` per hit, records in order, over the normalised text |
| Evaluation.Combine | src/evaluate/prepare_evaluation.py:215-220 | the loop computes the left-to-right merge of the dicts |
| Evaluation.CombinedKeys | src/evaluate/prepare_evaluation.py:215-220 | the combined dict has no repeated key, and its keys are the union of the dicts' keys |
| Evaluation.CombinedGet | src/evaluate/prepare_evaluation.py:217-218 | a key holds its value from the last dict that has it |
| Evaluation.BestLeftsDistinct | src/evaluate/prepare_evaluation.py:189-196 | the best-left table never holds the same right endpoint twice |
| Evaluation.BestLeftsMinimal | src/evaluate/prepare_evaluation.py:192-194 | each kept left is no larger than any input left with the same right endpoint |
| Evaluation.BestLeftsTable | src/evaluate/prepare_evaluation.py:187-196 | one entry per right endpoint, each an input pair swapped, every input right covered, each left minimal |
| Evaluation.SortPositions | src/evaluate/prepare_evaluation.py:198 | the sort returns a permutation of its input in ascending `(right, left)` order |
| Evaluation.MergedPositionsSpec | src/evaluate/prepare_evaluation.py:187-198 | the merged list is strictly increasing in right endpoints, so one pair per right; each pair is an input pair, every input right survives, and each left is the smallest for its right |
| Evaluation.MergeOverlappingElements | src/evaluate/prepare_evaluation.py:185-199 | an empty dict raises `IndexError`; otherwise the result keeps the first key alone, mapped to the merged positions |
| Propositions.Truncate | src/module/propositions.py:169-171 | the id is the uuid's first `limit` characters, or all of it when shorter |
| Propositions.ExtractJsonFromResponse | src/module/propositions.py:382-396 | `None` exactly when the reply has no "```json" block; a decode error exactly when the block's content is not JSON; otherwise the block's parse |
| Propositions.Field | src/module/propositions.py:336 | reading a key of the answer succeeds exactly when the answer is a dict with that key; a dict without it raises `KeyError`, a `None` answer `TypeError` |
| Propositions.TitleUpdatePromptIgnoresTitle | src/module/propositions.py:355-361 | as written, two chunks that differ only in their title get the same title-update prompt |
| Propositions.TitleUpdatePromptShowsTitle | src/module/propositions.py:355-361 | corrected, chunks whose titles print differently get different title-update prompts |
| Propositions.TotalPut | src/module/propositions.py:175-181 | assigning a chunk changes the total proposition count by the size of the new chunk minus that of the chunk it replaces |
| Propositions.CreateStepSpec | src/module/propositions.py:156-181 | one id is drawn; a created chunk holds exactly the proposition under the new id, with the old table size as its index, and no other chunk changes; a fresh id adds one chunk and one proposition; a failed request leaves the table as it was |
| Propositions.AppendStepSpec | src/module/propositions.py:281-311 | an unknown id raises `KeyError` and changes nothing; otherwise the proposition goes at the end of that chunk only, its id and index stay, the keys stay, the total grows by one; without regeneration title and summary stay, with it the summary is the regenerated one |
| Propositions.OutlineListsChunks | src/module/propositions.py:411-420 | the outline holds each chunk's entry right after the entries of the chunks before it |
| Propositions.AnsweredChunkId | src/module/propositions.py:457-464 | a dict answer without `chunk_id` raises `KeyError`; a dict answer with it gives its value; a non-dict answer is caught as `None` |
| Propositions.AddStepToEmptyCreates | src/module/propositions.py:262-279 | with an empty table the model is not asked and a chunk is created |
| Propositions.AddStepFollowsChoice | src/module/propositions.py:266-279 | with chunks present: no answer, `"No chunk"` or null creates a chunk; a named id appends to that chunk without drawing an id; an unknown one raises `KeyError` and leaves the table alone |
| Propositions.AddStepAddsOne | src/module/propositions.py:247-279 | at most one id is drawn, and a successful `add_proposition` adds exactly one proposition to the table when any chunk it creates gets an unused id |
| Propositions.AddStepKeys | src/module/propositions.py:247-279 | `add_proposition` removes no chunk, and the only key it may add is the id it drew |
| Propositions.AddAllConcat | src/module/propositions.py:244-245 | `add_propositions` takes its input in order: a batch is its first part, then the rest unless the first part failed |
| Propositions.AddAllCount | src/module/propositions.py:231-245 | when every id drawn is fresh, a successful `add_propositions` raises the total by exactly the number of input propositions, drawing at most one id each |
| Propositions.BackupChunkId | src/module/propositions.py:499-503 | an id is returned only when the dict answer's `chunk_ids` has length exactly eight; otherwise `None`; a `None` answer raises `TypeError` |
| Propositions.JsonLength | src/module/propositions.py:501 | `len` is defined exactly for strings, lists and dicts |
| Propositions.AgenticChunker.constructor | src/module/propositions.py:86-105 | a new chunker has no chunks and has drawn no id |
| Propositions.AgenticChunker.CreateNewChunk | src/module/propositions.py:156-181 | the table and the id counter move as the specified chunk creation says |
| Propositions.AgenticChunker.AddPropositionToChunk | src/module/propositions.py:281-311 | with the title prompt corrected (see Findings), the table moves as the specified append says |
| Propositions.AgenticChunker.GetChunkOutline | src/module/propositions.py:398-420 | the loop's accumulated string is the specified outline |
| Propositions.AgenticChunker.FindRelevantChunk | src/module/propositions.py:422-464 | the returned id is the one read from the model's answer about the outline and the proposition |
| Propositions.AgenticChunker.AddProposition | src/module/propositions.py:247-279 | with the title prompt corrected (see Findings), the table and the id counter move as the specified insert-or-append step says |
| Propositions.AgenticChunker.AddPropositions | src/module/propositions.py:231-245 | with the title prompt corrected (see Findings), the loop applies the insert-or-append step to each proposition in order |
| Propositions.AgenticChunker.GetChunks | src/module/propositions.py:505-528 | `dict` returns the table; `list_of_strings` one text per chunk, in table order, its propositions joined by a space; any other type nothing |
| Propositions.AgenticChunker.FindRelevantChunkBackup | src/module/propositions.py:466-503 | a failed request is its error; otherwise the answer's `chunk_ids` is kept only with exactly eight characters |
| EntityDesignation.KindOf | src/module/entity_designation.py:289-309 | `government_ids`, `codes` and `telephone_numbers` each route to their own list, and no other key routes anywhere |
| EntityDesignation.KeyItems | src/module/entity_designation.py:286-288 | a falsy value or an unknown key contributes no item |
| EntityDesignation.FiledMembers | src/module/entity_designation.py:283-311 | a kind's list holds exactly the stamped records of that kind |
| EntityDesignation.FiledTotal | src/module/entity_designation.py:283-311 | every item lands in exactly one list, so the three lengths add up to the number of items |
| EntityDesignation.CodeItemsRouting | src/module/entity_designation.py:285-309 | the items come exactly from the truthy values under the three known keys; each carries its person's uuid and the identifier and context of one item, and the key's kind |
| EntityDesignation.AppendData | src/module/entity_designation.py:273-281 | an item without `identifier` or `context` stops the loop with that error; otherwise the list gains one record per item, in order, each with the next uuid |
| EntityDesignation.ExtractCodesFromDict | src/module/entity_designation.py:283-311 | the loops compute the specified three lists, persons in order and items in order |
| EntityDesignation.Tagged | src/module/entity_designation.py:382-399 | `dict(x, **{...})` succeeds exactly when `x` gives a dict, then yields one entry; otherwise the error of building the dict from `x` |
| EntityDesignation.TaggedFields | src/module/entity_designation.py:382-399 | a checked entry has its `type` and `person_uuid`; every other field holds the last value the item's pairs give it, for a proper dict its own value |
| EntityDesignation.ToCheckTagged | src/module/entity_designation.py:381-399 | every entry of a list to check is tagged with that list's type and with the uuid of a person in the reply |
| EntityDesignation.Flagged | src/module/entity_designation.py:409-412 | an entry is flagged alone or not at all |
| EntityDesignation.Numbered | src/module/entity_designation.py:406-412 | the i-th flagged entry is stored under `error_i`, counting from one |
| EntityDesignation.NumberedWf | src/module/entity_designation.py:411-412 | the error keys are distinct, so no flagged entry overwrites another |
| EntityDesignation.WrongEntriesSpec | src/module/entity_designation.py:378-412 | the errors are numbered `error_1 .. error_n` in checking order, government ids then codes then telephone numbers, and are exactly the checked entries whose identifier does not occur in the text |
| EntityDesignation.CheckCodesForErrors | src/module/entity_designation.py:378-412 | the loops compute the specified numbered errors, each entry built as `dict(x, **{...})` builds it |
| EntityDesignation.PopulatedOutcome | src/module/entity_designation.py:566-571 | populating a category fails exactly when one of its entries lacks `context` or `item`, with that error; otherwise one uuid is drawn per entry |
| EntityDesignation.PopulatedKeyed | src/module/entity_designation.py:566-571 | with distinct uuids, a category's dict holds its entries in order, each under the uuid drawn for it and tagged with the category |
| EntityDesignation.CategoryDictsOutcome | src/module/entity_designation.py:597-604 | one dict per category is built, failing exactly as listing all the entries fails; the uuid counter advances by the number of entries |
| EntityDesignation.CategoryDictsKeyed | src/module/entity_designation.py:597-608 | merging the category dicts in order holds all the entries, keyed by their uuids, in category order |
| EntityDesignation.LocationRecordsSpec | src/module/entity_designation.py:592-619 | with distinct uuids there is one record per entry of the seven categories, in category order, each with its name, context, category and the uuid drawn for it |
| EntityDesignation.LocationRecordsOutcome | src/module/entity_designation.py:592-619 | the loading fails exactly when listing the seven categories' entries fails, with the same error |
| EntityDesignation.MissingCategory | src/module/entity_designation.py:566 | a category missing from the reply stops the loading with `KeyError` |
| EntityDesignation.ItemCategories | src/module/entity_designation.py:592-604 | every listed entry carries one of the seven categories |
| EntityDesignation.PopulateLocationDict | src/module/entity_designation.py:544-571 | a missing or non-list category is that error; otherwise the dict is filled as specified, one uuid per entry |
| EntityDesignation.LoadLocationRecords | src/module/entity_designation.py:592-619 | the method builds the specified location records |
| EntityDesignation.FillCategories | src/module/entity_designation.py:597-604 | the loop populates one dict per category, in order, and advances the uuid counter |
| EntityDesignation.ListLocations | src/module/entity_designation.py:609-619 | one location record per key of the merged dict, in order, with the key as its uuid |
| EntityDesignation.PersonLinksSpec | src/module/entity_designation.py:737-746 | a person's links are one per value listed for the person, in order, with the person's key, the value's uuid and its context |
| EntityDesignation.LinksMembers | src/module/entity_designation.py:737-746 | a link is produced exactly for one (person, value) pair of the reply, with the value's uuid as location |
| Neo4jRecords.CatchKeyException | src/module/neo4j_conn.py:182-197 | succeeds exactly for a dict with `full name` or `full_name`; `full name` is read when present, `full_name` only when it is absent; a non-dict raises `TypeError`, a dict with neither key `KeyError` |
| Neo4jRecords.NameFromShapes | src/module/neo4j_conn.py:183-189 | a non-empty list gives its last element, an empty list `None`, and any other value is returned unchanged |
| Neo4jRecords.LowerOf | src/module/neo4j_conn.py:97 | `.lower()` succeeds exactly on a string and lower-cases it; any other value raises `AttributeError` |
| Neo4jRecords.PiiNodeOfSpec | src/module/neo4j_conn.py:96-102 | one pair yields a record exactly when its value gives a lower-cased identifier and a context, and then exactly one record with the pair's key as uuid |
| Neo4jRecords.PiiNodesOk | src/module/neo4j_conn.py:92-104 | the records are built exactly when the result is iterable and every pair of every dict is usable; the label is the title-cased property |
| Neo4jRecords.DictNodesMembers | src/module/neo4j_conn.py:101-102 | the records of one dict are exactly those of its pairs |
| Neo4jRecords.PiiNodesMembers | src/module/neo4j_conn.py:94-104 | every record comes from a pair of a dict in the result, and every pair's record is present |
| Neo4jRecords.PiiNodesSingleKey | src/module/neo4j_conn.py:94-104 | with single-key dicts there is one record per dict, record `i` keyed by the key of dict `i` |
| Neo4jRecords.IndividualNodesOk | src/module/neo4j_conn.py:218-228 | the records are built exactly when the result is a dict whose every person has a name, `abbreviations` and `aliases`; a non-dict raises `AttributeError` |
| Neo4jRecords.IndividualNodesSpec | src/module/neo4j_conn.py:218-228 | one record per person, in order, with the person id as `uuid_person` and the name given by `catch_key_exception` |
| Neo4jRecords.PersonEntry | src/module/neo4j_conn.py:62-66 | a person's entry has exactly the keys `full name`, `abbreviations` and `aliases`, holding the node's `full_name`, `abbreviations` and `aliases` |
| Neo4jRecords.PersonPairs | src/module/neo4j_conn.py:61-66 | one assignment per returned node, in order, under the node's uuid |
| Neo4jRecords.ReadPersons | src/module/neo4j_conn.py:60-68 | the loop's dict, rendered, is the specified persons dict |
| Neo4jRecords.PersonsDictKeys | src/module/neo4j_conn.py:60-66 | the persons dict has no repeated key, and its keys are exactly the nodes' uuids |
| Neo4jRecords.PersonsDictLast | src/module/neo4j_conn.py:61-66 | a uuid returned more than once keeps the entry of its last node |
| Entities.NewDates | src/module/entities.py:30-42 | a `Dates` is built exactly when at most one of the three texts is set, keeping the given fields; otherwise `ValueError` |
| Entities.DatesOneField | src/module/entities.py:35-42 | setting no text or one text is accepted; setting any two raises `ValueError`, whatever the third |
| Entities.Demographics.AsWritten | src/module/entities.py:492-510 | as written, every component is a fresh default instance and every list empty, but `gender_sexual_orientation` holds the class object |
| Entities.Demographics.constructor | src/module/entities.py:492-510 | corrected, every component, `gender_sexual_orientation` included, is a fresh default instance and every list is empty |
| Entities.GenderSexualOrientationAsWritten | src/module/entities.py:508 | a `Demographics` built as written holds the class object, not an instance |
| Entities.GenderSexualOrientationCorrected | src/module/entities.py:508 | a `Demographics` built as corrected holds an instance of `Gender_sexual_orientation` |
| Entities.Individual.constructor | src/module/entities.py:146-148 | with the corrected `Demographics` (see Findings), an individual keeps the given designation and uuid and holds a freshly built, default `Demographics` |
| Entities.Organisation.AsWritten | src/module/entities.py:547-563 | as written, `name` ends up holding the address list and there is no `address` attribute; the components are default instances and the lists empty |
| Entities.Organisation.constructor | src/module/entities.py:547-563 | corrected, the name and the address list are kept apart; the components are default instances and the lists empty |
| Entities.OrganisationAsWritten | src/module/entities.py:552-553 | built as written, an organisation has lost its name to its address list and has no `address` |
| Entities.OrganisationCorrected | src/module/entities.py:552-553 | built as intended, an organisation keeps its name and its address list |

## Left out

- LLM transport (`AsyncOpenAI`/`OpenAI` clients, `send_prompt*` network calls): a reply is the value of the chat oracle in `Services` on the exact request assembled, so two identical requests get the same reply.
- `json.loads` and `json.dumps` (`str()` of a dict too): `loads` is a partial oracle `string -> Option<Json>` and `dumps` an oracle `Json -> string`. Their round trip is stated only where a table is stored and read back.
- `uuid4`: ids are the oracle `uuid(n)` for a counter `n` that each controller advances. Distinct ids are a hypothesis of the lemmas that need them. The 16- and 18-character truncations are part of the oracle. The chunker's 8-character truncation is modelled (`Propositions.Truncate`).
- Concurrency: the `asyncio.TaskGroup` fan-out of `send_solutions_for_verification` is a sequential loop in both controllers, one request and one reply per solution, in order (`DynamicConversation.SendSolutionsForVerification`, `StaticConversation.Conversation.SendSolutionsForVerification`). `asyncio.to_thread`/`gather` and the CLI glue are not part of this model.
- `DynamicConversation.Conversation.ConversationLoop` and `StaticConversation.Conversation.ConversationLoop` take a `fuel` bound on the number of rounds. Running past it is the model's `StepBoundReached` error, which the source cannot raise: the source loops until the model says `end`.
- `StaticConversation.Loaded`: sending a prompt that was never loaded (`None`) is the model's `MissingPrompt` error. What the chat client does with a `None` prompt is not part of this model.
- Neo4j query execution, the Cypher strings, `drop_node_category` and `save_nodes_as_json`: only the record-shaping code is modelled. `read_persons` takes the returned nodes as a list of records with a string `uuid`.
- File I/O: YAML and prompt files are a map from path to text. `save_prompt_to_file`, `read_text_file` and `save_text_from_docs` are not modelled, and neither are the `OSError` paths.
- The regex engine: each pattern (`\b\d+/10\b`, the `{"Next": ...}` patterns, the code fences) is a dedicated scan. `\w` and `\d` are taken over ASCII only; `\s` and `str.strip` use the Unicode whitespace set (`Text.IsSpace`). `lower`/`title` map ASCII letters only, and so does the case-insensitive matching of `Evaluation.MatchesAt`, where Python's `IGNORECASE` folds Unicode letters too.
- The fuzzy context regex `_build_flexible_context_regex` that `locate_identifiers` uses is the `ContextMatcher` oracle. Matches are taken as sound spans of the text; `_build_verbatim_matcher` is unused by the modelled code and is left out.
- `IndividualSolutions.ConvertListSolutionToDict`: returns the dict that the source passes to `json.dumps`. The key order comes from a Python `set`, is unspecified, and the result is therefore a map.
- `IndividualSolutions.ProcessVerificationResults`: returns the dict that the source passes to `json.dumps`, not the rendered string.
- `IndependentSolutions.ProcessVerificationResults`: returns the verdict dict, not the string `json.dumps` makes of it; the controller renders it with the `dumps` oracle when it stores it.
- `StaticConversation.ProcessVerificationResults`: returns the verdict dict, not the string `json.dumps` makes of it; the controller renders it with the `dumps` oracle when it stores it.
- `DynamicConversation.Conversation.RecordVerification`: its contract states the failures and that the returned table is what is appended, not which table it is. That the table is `VerificationOutcome` of the prompts and proposals is the contract of `DynamicConversation.VerifyProposal`, which computes it; restating it on the class method made the proofs of its callers too large.
- `DynamicConversation.Conversation.RecordIssueSolutions`: its contract states the failures and that the returned table is what is appended, not which table it is. That the table is the solved proposal (`IssueSolved`) is the contract of `DynamicConversation.SolveIssuesFor`, which computes it, for the same reason.
- `Json.DictOf`: a pair whose first item is not a string raises `TypeError` in the model, while Python accepts any hashable key; the model's dict keys are strings.
- `Json.PairOf`: as for `Json.DictOf`, a two-item list whose first item is not a string is a `TypeError`.
- `Evaluation.LocateIdentifiers`: searches the whole text for a record without a context, as corrected (`Evaluation.ContextSpan`). As written, such a record finds nothing (`Evaluation.EmptyContextFindsNothing`).
- `Propositions.AgenticChunker.AddPropositionToChunk`: the title prompt it sends shows the chunk's current title, as corrected (`Propositions.TitleUpdatePromptShowsTitle`). As written, the prompt shows the propositions in its place.
- `Propositions.AgenticChunker.AddProposition`: uses the corrected title prompt, as `Propositions.AgenticChunker.AddPropositionToChunk` does.
- `Propositions.AgenticChunker.AddPropositions`: uses the corrected title prompt, as `Propositions.AgenticChunker.AddPropositionToChunk` does.
- `Entities.Individual.constructor`: builds its `Demographics` with the corrected constructor, so `gender_sexual_orientation` holds an instance. As written, it holds the class object (`Entities.GenderSexualOrientationAsWritten`).
- `Propositions.AgenticChunker` `send_prompt`: every caller passes one user prompt, and only that case is modelled. The summaries and titles the model writes are oracle replies. `pretty_print_chunks` is printing and is left out.
- `check_codes_for_errors`: the XML rendering of the entries and the request that asks the model about them are left out. The numbered error table that the code builds is modelled.
- The nested entity dataclasses (`Health`, `Residence`, `Family`, ...) appear only by name. Their own fields are not part of this model. The shared mutable default `address=[]` of `Organisation` is not modelled.
- `set_prompts_argument` with a configured `linking` entry raises `KeyError` as written (`Utils.LinkingEntryRejected`). It is not claimed as a defect, because no configuration file is modelled.
- The call sites in `src/module/utils.py:487,511` pass constructor arguments that the controllers do not accept. This CLI glue is not part of this model.
- Logging, `print`, CLI parsing, environment loading and the `temperature` floats are left out.

## Findings

| source | as written | input that shows it | evidently intended | confidence | as-written member | corrected member |
|---|---|---|---|---|---|---|
| src/module/llm_agents.py:2062-2068 | `create_verifying_prompt` unpacks `process_feedback_loop`'s result into two names, but that result is a string | any refined prompt that is not two characters long, e.g. `"Check every name."`, raises `ValueError` | store the refined prompt | not executed | DynamicConversation.VerifyingPromptAsWrittenExample | DynamicConversation.Conversation.CreatePromptFromConversation |
| src/module/llm_agents.py:2095-2099 | `create_issue_prompt` calls `process_feedback_loop` with the keyword `generated_prompt`, which it does not take | refinement on, any prompt: `TypeError` | pass the prompt under the parameter's own name and store the refined prompt | not executed | DynamicConversation.IssuePromptAsWritten | DynamicConversation.Conversation.CreatePromptFromConversation |
| src/evaluate/prepare_evaluation.py:135-143 | a record without a context searches the escaped empty string, which matches at 0..0, so the identifier is looked for in an empty window | identifier `X1`, no context, text `X1`: no hit | search the whole text when there is no context | not executed | Evaluation.EmptyContextFindsNothing | Evaluation.ContextSpan |
| src/module/propositions.py:357 | `_update_chunk_title` puts the chunk's propositions where its current title belongs | two chunks differing only in title get the same prompt | show the current title | not executed | Propositions.TitleUpdatePromptIgnoresTitle | Propositions.TitleUpdatePromptShowsTitle |
| src/module/entities.py:508 | `gender_sexual_orientation` is bound to the class `Gender_sexual_orientation`, not to an instance | `Demographics()` | a fresh default instance, like every other component | not executed | Entities.GenderSexualOrientationAsWritten | Entities.GenderSexualOrientationCorrected |
| src/module/entities.py:552-553 | `self.name` is assigned the name and then the address, so the name is lost and no `address` attribute exists | `Organisation(name=d, address=[l])`: `name` holds `[l]` | assign the address to `self.address` | not executed | Entities.OrganisationAsWritten | Entities.OrganisationCorrected |
