# Law by Keystone compliance core, in Dafny

This project models the sequential core of the Law by Keystone back end
(`autonomous_defense_firm`). It covers:

- **The ethical filter.** This is the compliance rule engine that every payload
  passes through. It has three checks, each giving `pass`, `warn` or `block`
  with an explanation:
  - confidentiality, under ABA Model Rule 1.6;
  - conflict of interest, under ABA Model Rule 1.7;
  - unauthorised practice, under ABA Model Rule 5.5.

  `check_ethics` chooses which checks apply from the action type. It then
  returns the most severe record: `block` beats `warn`, which beats `pass`.
  Within one severity, the first check in order wins.
- **The two background tasks** that drive the filter. One checks a batch of
  payloads. The other cross-checks every client against the adverse parties
  of all cases.
- **The LLM configuration registry.** It supports add, remove, set-default,
  get-default and test operations, under the invariant "at most one default".
- **The training manager's bookkeeping.** It keeps training examples, the
  current model per type, and per-type version lists numbered 1, 2, 3, ….
- **The tag and guideline filters** of the case and document repositories.
- **The knowledge base's in-memory parts.** These are source routing, document
  ingestion, and the approve/reject selection of the human review.
- **Smaller helpers:**
  - whitespace tokenisation, plus the constant placeholders of the NLP engine;
  - the legal disclaimer, plus the constant checks of the ethics manager;
  - the feedback log.

Modules and files:

| module | file | models |
|---|---|---|
| `Wrappers` | `wrappers.dfy` | `Option`, with `GetOr` for `dict.get` defaults, and `Truthy` for a present, non-empty string |
| `Seqs` | `seqs.dfy` | list comprehensions with a condition (`Filter`), order-preserving subsequences, `list(set)` |
| `Text` | `text.dfy` | ASCII `str.isspace`, `str.lower`, `str.strip`, regular-expression word characters |
| `EthicalFilter` | `ethical_filter.dfy` | `ethical_filter.py` |
| `Tasks` | `tasks.dfy` | `tasks.py` |
| `Llm` | `llm_manager.dfy` | `llm_manager.py` |
| `Training` | `training.dfy` | `training.py` |
| `Repository` | `repository.dfy` | `repository.py` |
| `Knowledge` | `knowledge_base.dfy` | `knowledge_base.py` |
| `Nlp` | `nlp_engine.dfy` | `nlp_engine.py` |
| `Ethics` | `ethics.dfy` | `ethics.py` |
| `Feedback` | `feedback.dfy` | `feedback.py` |

Each source file is modelled in its own form:

- **Pure code** becomes functions over datatypes, with lemmas:
  - the checks of the ethical filter;
  - the repository filters;
  - tokenisation;
  - the disclaimer.
- **Objects whose methods update their fields** become classes with `modifies`
  clauses: `LLMManager`, `TrainingManager`, `KnowledgeBase` and
  `FeedbackEngine`. Each mutating method is proved against a specification
  function of the old state. Those specification functions carry the lemmas,
  for example the "at most one default" invariant over any sequence of
  registry operations.
- **Loops** become `while` loops with invariants:
  - the batch and cross-check loops;
  - the `set_default` and `get_default` loops;
  - the human review loop.

Payloads and users are typed records:

- `Payload(client, text)`:
  - `client` is the `'client'` value of a dict payload, or `None` when the payload is not a dict or has no such key;
  - `text` stands for `str(data)`.
- `User(jurisdictions)` and `Context(adverseParties, jurisdiction)` use `None` for a missing key.
- Python truthiness of a string is "present and non-empty".

## Model

| member | source | states |
|---|---|---|
| EthicalFilter.SearchFrom | autonomous_defense_firm/ethical_filter.py:30 | the scan finds a match iff the term occurs, ignoring ASCII case, as a whole word at some position at or after the start |
| EthicalFilter.Search | autonomous_defense_firm/ethical_filter.py:30 | `re.search` with `\bterm\b` and IGNORECASE succeeds iff the term occurs as a whole word somewhere in the text |
| EthicalFilter.FirstMatch | autonomous_defense_firm/ethical_filter.py:29-31 | the loop with early return stops at the first term of the list that occurs; every earlier term does not occur; it finds nothing iff no term occurs |
| EthicalFilter.CheckConfidentiality | autonomous_defense_firm/ethical_filter.py:25-32 | never blocks; warns iff one of the six terms occurs as a whole word; the warning names the pattern of the first matching term in list order; otherwise the result is `('pass', '')` |
| EthicalFilter.CheckConflictOfInterest | autonomous_defense_firm/ethical_filter.py:34-40 | never warns; blocks iff the client is truthy and among the adverse parties (missing key = empty), with the conflict explanation; a non-dict payload or an empty adverse list always passes with `('pass', '')` |
| EthicalFilter.CheckUnauthorizedPractice | autonomous_defense_firm/ethical_filter.py:42-48 | never warns; blocks iff the jurisdiction is truthy and not in the user's jurisdictions, with the practice explanation; a missing user authorises nothing, so any truthy jurisdiction blocks |
| EthicalFilter.Checks | autonomous_defense_firm/ethical_filter.py:57-71 | the `checks` list holds at most one record per check that runs; no record is a pass; a record blocks iff it is not the Rule 1.6 record, so confidentiality only warns and the other two only block |
| EthicalFilter.FirstWith | autonomous_defense_firm/ethical_filter.py:73-78 | `next(c for c in checks if c['result'] == sev)`: the first record with that severity, none earlier; absent iff no record has it |
| EthicalFilter.MostSevere | autonomous_defense_firm/ethical_filter.py:72-79 | the result is at least as severe as every record; a non-pass result is a record of the list, and the first one of its severity; otherwise it is the pass verdict with empty explanation and rule |
| EthicalFilter.MostSevereOfParts | autonomous_defense_firm/ethical_filter.py:57-79 | for the shape `check_ethics` builds (at most one warning, then at most one conflict block, then at most one practice block): the conflict block wins, then the practice block, then the warning, then pass |
| EthicalFilter.CheckEthics | autonomous_defense_firm/ethical_filter.py:50-79 | blocks iff an applicable conflict or practice check blocks; if the conflict check fires, the verdict is its Rule 1.7 record; otherwise a firing practice check gives its Rule 5.5 record; every block cites Rule 1.7 or 5.5; a non-block verdict is the Rule 1.6 warning exactly when confidentiality warns, else pass with empty explanation and rule |
| EthicalFilter.UserIgnoredOutsidePracticeActions | autonomous_defense_firm/ethical_filter.py:67-71 | for an action outside `create_case`/`update_case`/`legal_action` the user does not affect the verdict |
| EthicalFilter.ClientIgnoredOutsideConflictActions | autonomous_defense_firm/ethical_filter.py:62-66 | for an action outside the four client/case actions the payload's client does not affect the verdict |
| EthicalFilter.OnlyConfidentialityOutsideBothLists | autonomous_defense_firm/ethical_filter.py:57-71 | for an action in neither list only the confidentiality check runs: the verdict depends on the text alone and never blocks |
| EthicalFilter.MissingContextIsEmpty | autonomous_defense_firm/ethical_filter.py:55 | a missing context gives the same verdict as the empty context |
| EthicalFilter.BlockOutranksWarning | autonomous_defense_firm/ethical_filter.py:57-75 | a payload mentioning an SSN, for `create_case` in TN by a user authorised only in KY: confidentiality warns, and the verdict is the Rule 5.5 block |
| Tasks.Batch | autonomous_defense_firm/tasks.py:21-25 | the batch result list has exactly one entry per payload |
| Tasks.BatchEntries | autonomous_defense_firm/tasks.py:21-25 | the batch specification has one entry per payload, and entry i pairs payload i with the verdict it gets on its own |
| Tasks.EthicalBatchCheck | autonomous_defense_firm/tasks.py:15-25 | the result is as long as the input, and entry i holds payload i and `check_ethics` of payload i with the shared action, user and context |
| Tasks.AdverseUnion | autonomous_defense_firm/tasks.py:36-39 | a party is in the union iff it is in the adverse parties of some case (a missing key counting as none) |
| Tasks.CollectAdverseParties | autonomous_defense_firm/tasks.py:36-39 | the first loop builds exactly that union |
| Tasks.FlagConflicts | autonomous_defense_firm/tasks.py:41-44 | running the conflict check per client against any listing of the adverse set reports exactly the specified conflicts, in client order |
| Tasks.EthicalConflictCrosscheck | autonomous_defense_firm/tasks.py:28-45 | the reported conflicts are those of the clients against the union of all cases' adverse parties |
| Tasks.Conflicts | autonomous_defense_firm/tasks.py:41-44 | the conflicts list is never longer than the client list, and every entry has result `block` |
| Tasks.ConflictsSnoc | autonomous_defense_firm/tasks.py:41-44 | one more client at the end adds its conflict, if any, at the end |
| Tasks.ConflictsSelectExactly | autonomous_defense_firm/tasks.py:41-44 | the reported clients form an order-preserving subsequence of the clients, and client i is reported iff its `'client'` value is truthy and adverse |
| Tasks.ConflictsAllBlock | autonomous_defense_firm/tasks.py:42-44 | every reported conflict has result `block`, a conflicted client, and the conflict-of-interest explanation |
| Tasks.CrosscheckAgreesWithConflictCheck | autonomous_defense_firm/tasks.py:42 | listing the adverse set in any order, `check_conflict_of_interest` blocks a client iff the client is conflicted |
| Tasks.NoCasesNoConflicts | autonomous_defense_firm/tasks.py:36-44 | with no cases nothing is reported |
| Llm.ClearDefaults | autonomous_defense_firm/llm_manager.py:30-32 | every record gets `is_default` set to False explicitly, and nothing else about it changes |
| Llm.MarkDefault | autonomous_defense_firm/llm_manager.py:47-50 | each record's `is_default` is set explicitly to whether it carries the name; length, order and all other fields are unchanged |
| Llm.Added | autonomous_defense_firm/llm_manager.py:29-38 | `add_llm` appends exactly one record, with an explicit `is_default`; without the flag the earlier records are unchanged; with it each earlier record gets `is_default` False and keeps its other fields |
| Llm.WithoutName | autonomous_defense_firm/llm_manager.py:42 | the comprehension is never longer than the registry and keeps no record with the name |
| Llm.FirstDefault | autonomous_defense_firm/llm_manager.py:55-58 | the first record with a truthy default flag, none earlier; absent iff no record is default |
| Llm.FindByName | autonomous_defense_firm/llm_manager.py:62 | the first record with the name, none earlier; absent iff no record has the name |
| Llm.SubsequenceKeepsInvariant | autonomous_defense_firm/llm_manager.py:42 | keeping some records in order preserves "at most one default" and unique names |
| Llm.RemoveLlmSpec | autonomous_defense_firm/llm_manager.py:41-43 | after removal no record has the name; the rest keep their order; removing again changes nothing; both invariants survive |
| Llm.SetDefaultSpec | autonomous_defense_firm/llm_manager.py:45-52 | an unknown name leaves no default; with unique names there is at most one default, and for a known name `get_default` then finds that record |
| Llm.DuplicateNamesGiveTwoDefaults | autonomous_defense_firm/llm_manager.py:47-50 | with two records of the same name, `set_default` of that name makes both default |
| Llm.ApplyKeepsInvariant | autonomous_defense_firm/llm_manager.py:29-52 | adding a fresh name, removing, or setting a default each keep "at most one default" and unique names |
| Llm.RegistryInvariant | autonomous_defense_firm/llm_manager.py:29-52 | "at most one default" holds after any sequence of add, remove and set-default operations whose adds use fresh names |
| Llm.LlmManager.constructor | autonomous_defense_firm/llm_manager.py:8-19 | the registry holds the stored records, or none when there is no configuration file |
| Llm.LlmManager.AddLlm | autonomous_defense_firm/llm_manager.py:29-39 | exactly one record is appended at the end; without `is_default` the earlier records are unchanged; with it they all lose the flag and the new record is the only default; "at most one default" is preserved |
| Llm.LlmManager.RemoveLlm | autonomous_defense_firm/llm_manager.py:41-43 | the registry becomes the records not carrying the name, in order |
| Llm.LlmManager.SetDefault | autonomous_defense_firm/llm_manager.py:45-52 | the registry becomes the re-marked records, and the call returns true iff some record has the name |
| Llm.LlmManager.GetDefault | autonomous_defense_firm/llm_manager.py:54-58 | the first record with a truthy default flag, or none |
| Llm.LlmManager.TestLlm | autonomous_defense_firm/llm_manager.py:60-71 | `(False, 'Not found')` for an unknown name; otherwise, for the first record with the name: `(True, …)` for type `api`, the path-exists answer for `local`, `(False, 'Unknown type')` otherwise |
| Training.TrainingManager.constructor | autonomous_defense_firm/training.py:10-14 | no training data, no models, no versions, no feedback forwarded |
| Training.TrainingManager.CollectTrainingExample | autonomous_defense_firm/training.py:16-23 | appends exactly one example at the end and forwards exactly one feedback record tagged `training`; models and versions are unchanged |
| Training.TrainingManager.ListModelVersions | autonomous_defense_firm/training.py:68-69 | `[]` for a never-trained type; the versions of any type are numbered 1, 2, 3, … |
| Training.TrainingManager.TrainModel | autonomous_defense_firm/training.py:35-41 | the returned model records the current number of examples; it becomes the type's model and its next version, numbered old count + 1; the examples and the other types are unchanged |
| Training.TrainingManager.EvaluateModel | autonomous_defense_firm/training.py:58-63 | nothing iff the type has no model; otherwise the type and the size of the test set |
| Training.TrainingManager.ListModels | autonomous_defense_firm/training.py:65-66 | exactly the types that have a model, each once |
| Training.TrainTwice | tests/test_cli_and_training.py:46-51 | training one type twice on a fresh manager gives two versions, numbered 1 and 2 |
| Repository.FilterByTags | autonomous_defense_firm/repository.py:13-18 | applying the tag filter and then the guideline filter equals one pass keeping the records that carry every truthy filter |
| Repository.GetCases | autonomous_defense_firm/repository.py:12-18 | the listed cases that carry every given filter, in order |
| Repository.GetDocuments | autonomous_defense_firm/repository.py:24-30 | the listed documents that carry every given filter, in order |
| Repository.NoFilterKeepsListing | autonomous_defense_firm/repository.py:12-18 | with no truthy tag or guideline the listing comes back unchanged |
| Repository.SelectsExactlyWanted | autonomous_defense_firm/repository.py:14-17 | the result is an order-preserving subsequence of the listing, and record i is kept iff it carries every given filter |
| Repository.TagFilterIsExact | autonomous_defense_firm/repository.py:14-15 | with a truthy tag, a record is returned iff it is listed, carries the tag (missing = none) and carries any given guideline |
| Repository.FilterOrderIrrelevant | autonomous_defense_firm/repository.py:14-17 | filtering by guideline first and tag second gives the same list |
| Repository.SelectionIdempotent | autonomous_defense_firm/repository.py:14-17 | selecting again with the same arguments changes nothing |
| Repository.AddCase | autonomous_defense_firm/repository.py:20-21 | the case and both tag lists reach the knowledge base's `create_case` unchanged |
| Repository.AddDocument | autonomous_defense_firm/repository.py:32-33 | the document and both tag lists reach the knowledge base's `create_document` unchanged |
| Knowledge.Approves | autonomous_defense_firm/knowledge_base.py:104-105 | a reply approves iff, stripped and lower-cased, it is `y`, that is iff, stripped, it is `y` or `Y` |
| Knowledge.Reviewed | autonomous_defense_firm/knowledge_base.py:99-107 | the review selection: never longer than the items, all items when every reply approves, none when no reply approves |
| Knowledge.ReviewedIndices | autonomous_defense_firm/knowledge_base.py:99-107 | the kept positions are exactly those whose reply approves, and the kept items are those positions in order |
| Knowledge.ReviewedSelectsExactly | autonomous_defense_firm/knowledge_base.py:99-107 | the approved items are an order-preserving subsequence of the items, and item i is kept iff reply i approves it |
| Knowledge.KnowledgeBase.constructor | autonomous_defense_firm/knowledge_base.py:10-14 | all three source lists and the document list are empty |
| Knowledge.KnowledgeBase.AddSource | autonomous_defense_firm/knowledge_base.py:16-22 | the source is appended to exactly the list the type names; any other type changes nothing; documents are untouched |
| Knowledge.KnowledgeBase.IngestDocument | autonomous_defense_firm/knowledge_base.py:24-25 | the document is appended at the end; the source lists are unchanged |
| Knowledge.KnowledgeBase.Preprocess | autonomous_defense_firm/knowledge_base.py:27-29 | all four lists are unchanged |
| Knowledge.KnowledgeBase.HumanReview | autonomous_defense_firm/knowledge_base.py:94-107 | the loop returns exactly the review selection for the given replies |
| Knowledge.KnowledgeBase.FetchTnConstitution | autonomous_defense_firm/knowledge_base.py:139-146 | no request is made: one record with exactly the keys `title` and `url`, holding `Tennessee Constitution` and the fixed PDF address |
| Text.Lower | autonomous_defense_firm/knowledge_base.py:104 | `str.lower()` on ASCII: same length, each character lower-cased on its own |
| Text.Strip | autonomous_defense_firm/knowledge_base.py:104 | the result neither starts nor ends with whitespace |
| Text.StripDropsOnlyOuterSpace | autonomous_defense_firm/knowledge_base.py:104 | the input is some whitespace, then the result, then more whitespace |
| Nlp.WordLen | autonomous_defense_firm/nlp_engine.py:12 | the leading run of non-whitespace ends at the end of the string or at whitespace |
| Nlp.Split | autonomous_defense_firm/nlp_engine.py:12 | every token is non-empty and free of whitespace |
| Nlp.LegalTokenize | autonomous_defense_firm/nlp_engine.py:10-12 | no token is empty or contains whitespace |
| Nlp.SplitSkipsSpaces | autonomous_defense_firm/nlp_engine.py:12 | leading whitespace contributes no tokens |
| Nlp.AllSpaceSplitsToNothing | autonomous_defense_firm/nlp_engine.py:12 | empty or all-whitespace input gives no tokens |
| Nlp.SplitToken | autonomous_defense_firm/nlp_engine.py:12 | a single word splits to itself |
| Nlp.SplitSeparates | autonomous_defense_firm/nlp_engine.py:12 | a non-empty whitespace run separates: the text before and after it is tokenised independently, so every maximal word appears as a token in order |
| Nlp.SplitJoin | autonomous_defense_firm/nlp_engine.py:12 | splitting undoes joining tokens with single spaces |
| Nlp.JoinNormalized | autonomous_defense_firm/nlp_engine.py:12 | joining tokens with single spaces gives a string whose every whitespace is a single space between two words |
| Nlp.NormalizedIsJoinOfSplit | autonomous_defense_firm/nlp_engine.py:12 | such a string is the single-space join of its own tokens |
| Nlp.TokenizeNormalForm | autonomous_defense_firm/nlp_engine.py:10-12 | joining the tokens with single spaces gives the input with surrounding whitespace dropped and inner runs collapsed: the one normalised string with the same tokens |
| Nlp.TokenizeCitation | tests/test_nlp_engine.py:8-10 | `Tennessee v. Smith, 2020` gives the tokens `Tennessee`, `v.`, `Smith,`, `2020` |
| Nlp.NamedEntityRecognition | autonomous_defense_firm/nlp_engine.py:14-16 | no entities for any text |
| Nlp.ParseSentence | autonomous_defense_firm/nlp_engine.py:18-20 | an empty parse for any text |
| Nlp.IntentRecognition | autonomous_defense_firm/nlp_engine.py:22-24 | `unknown` for any question |
| Nlp.QueryExpansion | autonomous_defense_firm/nlp_engine.py:26-28 | the question alone |
| Nlp.GenerateAnswer | autonomous_defense_firm/nlp_engine.py:30-32 | the fixed not-implemented reply |
| Ethics.AddDisclaimer | autonomous_defense_firm/ethics.py:22-24 | the result starts with the output and ends with the disclaimer, and its length is the sum of theirs |
| Ethics.AddDisclaimerInjective | autonomous_defense_firm/ethics.py:22-24 | different outputs keep different results |
| Ethics.AddDisclaimerTwice | autonomous_defense_firm/ethics.py:22-24 | applying it twice appends the disclaimer twice, so a second call is never a no-op |
| Ethics.CheckBias | autonomous_defense_firm/ethics.py:10-12 | never reports bias |
| Ethics.TransparencyReport | autonomous_defense_firm/ethics.py:14-16 | an empty report |
| Ethics.AccountabilityCheck | autonomous_defense_firm/ethics.py:18-20 | always passes |
| Ethics.CheckConfidentiality | autonomous_defense_firm/ethics.py:26-28 | always passes |
| Feedback.FeedbackEngine.constructor | autonomous_defense_firm/feedback.py:7-8 | the log is empty |
| Feedback.FeedbackEngine.CollectFeedback | autonomous_defense_firm/feedback.py:10-15 | exactly one `{answer, rating, comments}` record is appended at the end; earlier records are unchanged |
| Feedback.FeedbackEngine.CollectFeedbackUncommented | autonomous_defense_firm/feedback.py:10 | an omitted comment is recorded as `None` |
| Feedback.FeedbackEngine.RetrainFromFeedback | autonomous_defense_firm/feedback.py:17-19 | the log is unchanged |
| Feedback.FeedbackEngine.Evaluate | autonomous_defense_firm/feedback.py:21-23 | no metrics, and the log is unchanged |
| Seqs.Filter | autonomous_defense_firm/repository.py:15 | a list comprehension with a condition is never longer than its list, and every element it keeps satisfies the condition |
| Seqs.FilterPicks | autonomous_defense_firm/repository.py:15 | a list comprehension with a condition keeps exactly the positions whose element satisfies it, in order |
| Seqs.FilterMembers | autonomous_defense_firm/repository.py:15 | an element survives iff it was in the list and satisfies the condition |
| Seqs.FilterCommutes | autonomous_defense_firm/repository.py:14-17 | two conditional comprehensions in a row give the same list in either order |
| Seqs.FilterFuse | autonomous_defense_firm/repository.py:14-17 | two conditional comprehensions in a row equal one with the conjunction |
| Seqs.FilterIdempotent | autonomous_defense_firm/llm_manager.py:42 | filtering twice by the same condition is filtering once |
| Seqs.SetToSeq | autonomous_defense_firm/tasks.py:42 | `list(s)` holds every element of the set exactly once |

## Left out

- I/O and services:
  - Network fetchers in `knowledge_base.py` (CourtListener, the Caselaw Access Project, Justia, the US Constitution, Oyez) and `save_to_gcloud`. They are HTTP, scraping and cloud-SDK calls. `fetch_tn_constitution` makes no request and is modelled as `Knowledge.KnowledgeBase.FetchTnConstitution`.
  - The console output and `input()` of `human_review`. The replies are a parameter; their count must cover the items.
- Knowledge.KnowledgeBase.HumanReview: requires at least one reply per item. In the source an exhausted input (closed or piped stdin, end of file) makes `input()` raise `EOFError`, which `human_review` passes on; the model does not cover that case.
- File persistence:
  - `LLMManager.load`/`save` and the `save()` after each mutation. The constructor takes the records parsed from the file, or none for a missing file.
  - `TrainingManager.export_training_data`/`import_training_data` (JSON) and `save_model`/`load_model` (pickle).
- The `os.path.exists` call in `test_llm` is the `pathExists` parameter.
- The Celery application and task decorators in `tasks.py`, and the placeholder `example_background_task`. Only the bodies of the Celery tasks are modelled, as sequential code.
- Other modules:
  - `cli.py` (argument parsing, printing, environment variables);
  - `config.py` (environment reads);
  - `audit.py` (logging);
  - `setup.py` (packaging);
  - `retrieval.py` and `legal_education.py` (placeholders and constants).
- `str(data)` is not computed. The payload's `text` stands for it, so which substrings a dict payload exposes is not modelled.
- `EthicalFilter.CheckConfidentiality`: Python's `re` treats letters, digits and `\b` in Unicode. This model uses ASCII letters, digits and `_`, with ASCII case folding.
- `Text.Strip`: Python's `str.strip()`, `str.split()` and `str.lower()` also handle non-ASCII whitespace and letters. This model uses ASCII only. A reply such as a no-break space followed by `y` approves in Python but not here.
- Values of unexpected types are not modelled:
  - a `'client'`, `'jurisdiction'`, `'name'` or `'type'` value that is not a string;
  - a present key whose value is `None` where a list is expected. Python raises `TypeError` there.
  - a string where a list is expected (`adverse_parties`, `jurisdictions`, `ethical_tags`, `ethical_guideline_ids`). Python's `in` then tests for a substring, not for an element.
  - a stored LLM record without a `'name'` key. `set_default`, `remove_llm` and `test_llm` then raise `KeyError`; `set_default` has already re-marked the records before it when that happens.
- The constant `accuracy: 1.0` of `evaluate_model` is a float and is not modelled.
- `evaluate_model` tests `if not model`. A model record made by `train_model` is a non-empty dict, so this model tests for presence of the type.
- `list_models` returns dict keys in insertion order. `Training.TrainingManager.ListModels` leaves the order open.
- `list_llms` returns the list itself, so callers alias it. The model exposes the `llms` field, but aliasing and in-place mutation of shared dicts are not captured.
- `ethical_conflict_crosscheck` never uses its `user` and `context` parameters, so they are dropped.
- `list(adverse_parties)` has an unspecified order. The conflict check only tests membership, so any order gives the same result.
- Knowledge-base methods that `training.py` and `repository.py` call are not defined in `knowledge_base.py`: `create_feedback`, `list_cases`, `create_case`, `list_documents`, `create_document`. They are treated as collaborators:
  - forwarded feedback is logged in `feedbackSent`;
  - listings are a `Listing` value;
  - creations are returned as `KbCall` values.
- No code routes prompts to local or remote model backends, so there is no provider dispatch to model.
