# CareSpeak symptom-to-product pipeline, modelled in Dafny

CareSpeak is a voice assistant. It turns a user's description of how they
feel into product suggestions, in two forms.

The **symptom search tool** (`symptom_search_tool.py`) has two byte-identical
copies, `my-vapi-agent/` and `my-vapi-tools/`. The table below cites the first copy;
its tool rows hold for the second at the same lines. The tool has three
parts:
- It maps a symptom phrase to one product-search query, using an ordered
  phrase table, or a query built from the phrase's meaningful words.
- It keeps the relevant, rated results and sorts them by rating.
- It reads them out as a numbered list.

The **symptom search pipeline** (`symptom_search_pipeline.py`) has four
layers:
1. A language model extracts a symptom record from the conversation. A keyword
   table takes over when the model fails or its reply is not JSON. The record
   is then repaired into a normal form.
2. The model recommends medicines for the symptoms. A medicine table takes
   over when there is no usable reply.
3. Each medicine is searched for. The first `max_results` results of each
   search are kept when they are rated.
4. The model words the answer. A fixed apology is used instead when nothing
   was found.

An orchestrator runs the layers and reports which ones completed. The entry
point turns that report into the spoken response.

Everything that leaves the program is a parameter of the model:
- each layer's language-model request is a `Backend`, a function from the
  token parameter of an attempt to the reply text or the exception's message;
- `json.loads` is `parse: string -> Parsed`;
- each product search is `api`, a function from the query (or the medicine)
  to a `Fetch`: the decoded body, or the exception.

Modules, in dependency order:
- `Options`: `Option` and `Fallible`, a value or the message of an exception.
- `Seqs`: Python slicing, and deduplication that keeps the first occurrence.
- `Text`: ASCII `lower`, `split`, `strip`, `in`, `join` and `str(int)`.
- `Json`: the shape of parsed JSON values.
- `Products`: raw search records, and the record rebuilt with defaults.
- `Completion`: the three-attempt completion wrapper and the code-fence clean-up.
- `SearchTool`: the search tool.
- `Extraction`, `Recommendation`, `MedicineSearch`, `Response`: layers 1 to 4.
- `Pipeline`: the orchestrator and the voice response.

Loops in the source are methods with loop invariants, proved equal to a
function:
- the keyword scan, `ScanKeywords`;
- the in-place record repair, `Normalise`;
- the medicine-table extend and dedup loops, `LookupAll` and `KeepFirst`;
- the per-medicine search loop, `SearchMedicines` and `KeepRated`;
- the search tool's result processing, description and voice formatting loops.

Those functions are then the subject of the lemmas.

Behaviours of the code worth knowing:
- When the model's reply is not JSON, layer 1 sets severity `"moderate"`
  (`my-vapi-tools/symptom_search_pipeline.py:123-128`). Only the exception
  path sets `"unknown"` (`my-vapi-tools/symptom_search_pipeline.py:148-153`).
- A medicine list parsed from the model is returned as it is
  (`my-vapi-tools/symptom_search_pipeline.py:264-265`). It is not
  deduplicated and its elements are not checked to be strings.
- A failing product search returns an error record
  (`my-vapi-tools/symptom_search_pipeline.py:378-383`). Layer 4 answers it
  with its apology (`my-vapi-tools/symptom_search_pipeline.py:397-398`), and
  the pipeline reports `"success"` with all four steps
  (`my-vapi-tools/symptom_search_pipeline.py:535-542`).
- The pipeline cuts each medicine's results to `max_results`
  (`my-vapi-tools/symptom_search_pipeline.py:355`) before the rating filter
  (`my-vapi-tools/symptom_search_pipeline.py:367`), and does not sort. The
  tool filters and sorts first (`my-vapi-agent/symptom_search_tool.py:195`),
  and cuts after (`my-vapi-agent/symptom_search_tool.py:58-59`).
- The `"seasonal allergies"` entry of the tool's query table
  (`my-vapi-agent/symptom_search_tool.py:127`) can never be chosen.
  `"allergies"` comes earlier in the table (`:126`) and is contained in it.

## Model

| member | source | states |
|---|---|---|
| Seqs.Take | my-vapi-tools/symptom_search_pipeline.py:355 | Python's `s[:k]`: the first k elements, all but the last -k for a negative k, clamped to the length |
| Seqs.DedupSpec | my-vapi-tools/symptom_search_pipeline.py:312-320 | the dedup keeps each element exactly once, keeps no other, and keeps them in first-occurrence order |
| Seqs.DedupOfDistinct | my-vapi-tools/symptom_search_pipeline.py:312-320 | a list without duplicates comes out of the dedup unchanged |
| Text.LowerIdempotent | my-vapi-tools/symptom_search_pipeline.py:166 | lowering a lowered string changes nothing |
| Text.Split | my-vapi-agent/symptom_search_tool.py:148 | `split()` yields non-empty words that contain no whitespace |
| Text.SplitConcat | my-vapi-agent/symptom_search_tool.py:148 | the words, concatenated, are the input with every whitespace character removed |
| Text.SplitEmpty | my-vapi-agent/symptom_search_tool.py:148 | `split()` finds no word exactly when the input is all whitespace |
| Text.SplitJoin | my-vapi-agent/symptom_search_tool.py:148 | splitting words without whitespace, joined by single spaces, gives back those words: each word is a maximal non-whitespace run |
| Text.Strip | my-vapi-tools/symptom_search_pipeline.py:103 | `strip()` yields a string that neither starts nor ends with whitespace |
| Text.StripSpec | my-vapi-tools/symptom_search_pipeline.py:103 | `strip()` keeps exactly the slice between the leading and the trailing whitespace runs; everything it cuts is whitespace; the result is non-empty whenever the input has a non-whitespace character |
| Text.StripCharacterised | my-vapi-tools/symptom_search_pipeline.py:103 | any slice with only whitespace around it, and no whitespace at its own ends, is the strip: the contract above determines the result |
| Text.StripIdempotent | my-vapi-tools/symptom_search_pipeline.py:111-112 | stripping twice is stripping once |
| Text.JoinContainsPart | my-vapi-tools/symptom_search_pipeline.py:397-398 | a joined string contains each of its parts |
| Json.StringsFromStrings | my-vapi-tools/symptom_search_pipeline.py:124 | a list of strings survives the trip into JSON values and back |
| Products.FromRaw | my-vapi-tools/symptom_search_pipeline.py:356-366 | each of the eight fields keeps its value when present and otherwise gets the source's default (`""` for title, brand, link and thumbnail, `"Price not available"`, 0, 0, False) |
| Completion.FirstSuccess | my-vapi-tools/symptom_search_pipeline.py:456-488 | the reference retry loop: the first attempt that returns wins, after only failed attempts; otherwise the errors of all attempts, in order |
| Completion.ChatCompletionIsFirstSuccess | my-vapi-tools/symptom_search_pipeline.py:451-488 | `_chat_completion` is that retry loop over max_completion_tokens, max_tokens and no token parameter, and raises the combined message only when all three fail |
| Completion.ChatCompletionSucceedsIffSomeAttempt | my-vapi-tools/symptom_search_pipeline.py:456-481 | the completion returns exactly when one of the three attempts does |
| Completion.CombinedErrorNamesEach | my-vapi-tools/symptom_search_pipeline.py:484-488 | the combined exception message contains each attempt's error |
| Completion.CleanJsonFenced | my-vapi-tools/symptom_search_pipeline.py:103-112 | a reply fenced as ```` ```json … ``` ```` is cleaned to its stripped body |
| Completion.CleanFenced | my-vapi-tools/symptom_search_pipeline.py:254-260 | a reply in a bare ```` ``` ```` fence is cleaned to its stripped body, unless the body starts with `json` |
| Completion.CleanUnfenced | my-vapi-tools/symptom_search_pipeline.py:103-112 | a reply without an opening fence is only stripped |
| Completion.CleanUnclosedJsonFence | my-vapi-tools/symptom_search_pipeline.py:106-107 | the closing fence is not checked: an unclosed ```` ```json ```` reply still loses its last three characters |
| SearchTool.FirstEntryIn | my-vapi-agent/symptom_search_tool.py:140-142 | the index found is of an entry whose phrase occurs, with no earlier entry occurring; no index exactly when no entry occurs |
| SearchTool.MeaningfulWords | my-vapi-agent/symptom_search_tool.py:149 | the filter keeps exactly the words that are not stop words and are longer than two characters |
| SearchTool.MeaningfulWordsAppend | my-vapi-agent/symptom_search_tool.py:149 | the filter keeps order and repetitions: filtering a concatenation filters each part in turn |
| SearchTool.MeaningfulWordsSingle | my-vapi-agent/symptom_search_tool.py:149 | a single word is kept exactly when it is meaningful |
| SearchTool.QueryFromFirstMatchingEntry | my-vapi-agent/symptom_search_tool.py:136-142 | the first table entry whose phrase occurs in the lowered input gives the query |
| SearchTool.QueryWithoutTableMatch | my-vapi-agent/symptom_search_tool.py:144-157 | with no entry matching, the query is the first three meaningful words plus `" relief medicine"`, or `"health wellness products"` when there are none |
| SearchTool.QueryNeverEmpty | my-vapi-agent/symptom_search_tool.py:136-157 | the query is never empty |
| SearchTool.BackPainQuery | my-vapi-agent/symptom_search_tool.py:97 | "back pain" gives "back pain relief" |
| SearchTool.TroubleSleepingQuery | my-vapi-agent/symptom_search_tool.py:123 | "trouble sleeping" gives "sleep aid" |
| SearchTool.SeasonalAllergiesQuery | my-vapi-agent/symptom_search_tool.py:126-127 | "seasonal allergies" gives "allergy medicine", because "allergies" is listed earlier |
| SearchTool.SeasonalAllergiesEntryShadowed | my-vapi-agent/symptom_search_tool.py:126-142 | no input ever yields the "seasonal allergy medicine" query |
| SearchTool.IsRelevantResult | my-vapi-agent/symptom_search_tool.py:199-225 | a result is relevant exactly when its lowered title mentions none of the media keywords; the symptoms never change the answer |
| SearchTool.ExtractDescription | my-vapi-agent/symptom_search_tool.py:227-250 | the appending method builds the description; the description starts with the title |
| SearchTool.DescriptionRatingNote | my-vapi-agent/symptom_search_tool.py:240-244 | for a title without "(", the description has the rating note exactly when the result has a positive rating and reviews |
| SearchTool.DescriptionPrimeNote | my-vapi-agent/symptom_search_tool.py:246-248 | the description ends with " - Prime eligible" exactly when the result is Prime (given a title not ending so) |
| SearchTool.SortByRating | my-vapi-agent/symptom_search_tool.py:195 | the sort is a permutation of its input |
| SearchTool.ProcessResults | my-vapi-agent/symptom_search_tool.py:170-197 | the append-then-sort method computes the processed list |
| SearchTool.ProcessedSpec | my-vapi-agent/symptom_search_tool.py:170-195 | nothing without `organic_results`; otherwise a permutation of the kept results, sorted by rating highest first, with equal ratings in input order, and holding every kept result and nothing else |
| SearchTool.SortByRatingSorted | my-vapi-agent/symptom_search_tool.py:195 | the sorted list is non-increasing in rating |
| SearchTool.SortByRatingStable | my-vapi-agent/symptom_search_tool.py:195 | listings of equal rating keep their relative order |
| SearchTool.ProcessedRelevantAndRated | my-vapi-agent/symptom_search_tool.py:175-192 | every processed listing is relevant, has a positive rating and has reviews |
| SearchTool.SearchProductsBySymptoms | my-vapi-agent/symptom_search_tool.py:23-80 | the method builds the query, calls the backend, processes the body and truncates, yielding the report |
| SearchTool.SearchReportSpec | my-vapi-agent/symptom_search_tool.py:34-80 | the report echoes the symptoms; a failed request gives "API request failed: " and the error, any other failure "Search failed: " and the error; a body gives the built query, the processed list cut to max_results, and its count |
| SearchTool.TruncatedAfterProcessing | my-vapi-agent/symptom_search_tool.py:55-66 | a successful report's results are the processed list's prefix of length min(n, max_results) (a negative max_results drops that many from the end), and total_results is their number |
| SearchTool.FormatResultsForVoice | my-vapi-agent/symptom_search_tool.py:282-307 | the appending method computes the voice text |
| SearchTool.VoiceNamesSymptomsAndAdvice | my-vapi-agent/symptom_search_tool.py:292-307 | every voice text names the symptoms and recommends a healthcare professional |
| SearchTool.VoiceListsEveryProduct | my-vapi-agent/symptom_search_tool.py:295-307 | a non-empty success starts with the header counting the products, ends with the disclaimer, and holds product i's line numbered i |
| SearchTool.ItemLineClauses | my-vapi-agent/symptom_search_tool.py:298-302 | a product line names the product; it has the star-rating clause when the rating is positive and the price clause when a price is known; with neither it is just number, title and full stop |
| SearchTool.ItemLineWithout | my-vapi-agent/symptom_search_tool.py:298-302 | without a positive rating a product line is exactly number, title, price clause; without a price it is exactly number, title, rating clause |
| SearchTool.MockVoiceReply | my-vapi-tools/test_symptom_search.py:96-130 | the voice text for the test's two mock products contains the four phrases the test checks |
| SearchTool.SearchProductsForSymptoms | my-vapi-agent/symptom_search_tool.py:253-280 | the wrapper sets the tool up, searches, and adds the voice text to a success |
| SearchTool.ToolReplySpec | my-vapi-agent/symptom_search_tool.py:264-280 | a setup exception gives "Failed to search for products: " and its message; otherwise the search report, with a voice response exactly when the search succeeded, naming the symptoms and a healthcare professional |
| Extraction.ScanKeywords | my-vapi-tools/symptom_search_pipeline.py:190-196 | the nested loop, with its break and membership test, computes the dedup of the matching table symptoms |
| Extraction.ExtractSymptomsFallback | my-vapi-tools/symptom_search_pipeline.py:156-198 | `_extract_symptoms_fallback` computes the fallback symptoms of the conversation |
| Extraction.MatchingMembers | my-vapi-tools/symptom_search_pipeline.py:191-195 | a symptom is matched exactly when one of its entries has a keyword in the text |
| Extraction.MatchingInTableOrder | my-vapi-tools/symptom_search_pipeline.py:191-195 | matched symptoms come in table order |
| Extraction.FallbackSymptomsSpec | my-vapi-tools/symptom_search_pipeline.py:166-196 | the fallback returns each table symptom with a keyword in the lowered conversation, once, in table order, and nothing else |
| Extraction.HeadacheFeverSymptoms | my-vapi-tools/symptom_search_pipeline.py:170-196 | "I have a headache and fever" gives ["headache", "fever"] |
| Extraction.SetDefault | my-vapi-tools/symptom_search_pipeline.py:139-141 | `setdefault` adds the key with the default when it is missing and changes nothing else |
| Extraction.Normalise | my-vapi-tools/symptom_search_pipeline.py:130-141 | the in-place repair computes the normalised record |
| Extraction.NormalisedSpec | my-vapi-tools/symptom_search_pipeline.py:130-141 | the repaired record has the dict's keys and the four fields; a present field keeps its value (except a `symptoms` that is not a list); a missing one gets `[]`, `"unknown"` or None |
| Extraction.NormalisedNonObject | my-vapi-tools/symptom_search_pipeline.py:131-132 | a parsed value that is not a dict becomes the record of defaults |
| Extraction.NormalisedOfNormalForm | my-vapi-tools/symptom_search_pipeline.py:130-141 | a record already in normal form is left unchanged |
| Extraction.NormalisedIdempotent | my-vapi-tools/symptom_search_pipeline.py:130-141 | repairing twice is repairing once |
| Extraction.FallbackRecord | my-vapi-tools/symptom_search_pipeline.py:123-128 | the fallback records are in normal form |
| Extraction.ExtractedNormalForm | my-vapi-tools/symptom_search_pipeline.py:53-154 | every record layer 1 returns has a list of symptoms and the other three fields |
| Extraction.ExtractedWhenModelFails | my-vapi-tools/symptom_search_pipeline.py:145-154 | when the completion raises, the keyword symptoms with severity "unknown" and the error in the context |
| Extraction.ExtractedWhenReplyMalformed | my-vapi-tools/symptom_search_pipeline.py:115-128 | when the reply is not JSON, the keyword symptoms with severity "moderate" and the fallback context |
| Extraction.ExtractedWhenReplyParses | my-vapi-tools/symptom_search_pipeline.py:103-143 | otherwise the repaired parse of the cleaned reply |
| Recommendation.MedicinesFor | my-vapi-tools/symptom_search_pipeline.py:309-310 | a symptom that is not a table key contributes nothing |
| Recommendation.FirstUnhashable | my-vapi-tools/symptom_search_pipeline.py:308-309 | the index of the first symptom that is a list or a dict, with every earlier one hashable |
| Recommendation.LookupAll | my-vapi-tools/symptom_search_pipeline.py:307-320 | the extend loop and the dedup loop compute the lookup, including the TypeError of an unhashable symptom |
| Recommendation.KeepFirst | my-vapi-tools/symptom_search_pipeline.py:312-320 | the `seen`-set loop computes the dedup |
| Recommendation.RecommendMedicinesFallback | my-vapi-tools/symptom_search_pipeline.py:277-320 | `_recommend_medicines_fallback` computes the medicine fallback |
| Recommendation.ConcatenatedMembers | my-vapi-tools/symptom_search_pipeline.py:307-310 | a medicine is collected exactly when one of the symptoms lists it |
| Recommendation.LookupSpec | my-vapi-tools/symptom_search_pipeline.py:307-320 | the result has no duplicates, holds exactly the medicines of the symptoms, and is in first-occurrence order of the concatenated lists |
| Recommendation.LookupIgnoresUnknown | my-vapi-tools/symptom_search_pipeline.py:309 | inserting a symptom the table does not know changes nothing |
| Recommendation.MedicineFallbackSpec | my-vapi-tools/symptom_search_pipeline.py:287-320 | the fallback raises exactly for an unhashable symptom, and otherwise meets the lookup's guarantees |
| Recommendation.HeadacheFeverMedicines | my-vapi-tools/symptom_search_pipeline.py:288-289 | headache and fever give acetaminophen, ibuprofen, aspirin |
| Recommendation.RecommendNothingForNoSymptoms | my-vapi-tools/symptom_search_pipeline.py:211-213 | no symptoms give no medicines, whatever the model and parser |
| Recommendation.RecommendModelList | my-vapi-tools/symptom_search_pipeline.py:262-265 | a parsed list is returned unchanged |
| Recommendation.RecommendFallsBack | my-vapi-tools/symptom_search_pipeline.py:239-275 | a non-string symptom, a failed completion, a malformed reply or a non-list reply gives the table fallback |
| Recommendation.RecommendRaisesIffUnhashable | my-vapi-tools/symptom_search_pipeline.py:273-275 | layer 2 raises exactly when there are symptoms and one is a list or a dict |
| Recommendation.RecommendUnhashableError | my-vapi-tools/symptom_search_pipeline.py:273-275 | that exception is the TypeError of the first such symptom |
| Recommendation.HeadacheFeverRecommended | my-vapi-tools/symptom_search_pipeline.py:273-289 | with the model failing, headache and fever get acetaminophen, ibuprofen, aspirin |
| MedicineSearch.RatedHits | my-vapi-tools/symptom_search_pipeline.py:355-368 | no more hits than results, each rated and tagged with the medicine |
| MedicineSearch.FirstFailure | my-vapi-tools/symptom_search_pipeline.py:347-350 | the first medicine whose search raised, with all earlier searches fetched |
| MedicineSearch.KeepRated | my-vapi-tools/symptom_search_pipeline.py:354-368 | the inner loop computes the rated hits |
| MedicineSearch.SearchMedicines | my-vapi-tools/symptom_search_pipeline.py:333-383 | the accumulation loop computes the search outcome, ending with the error of the first failing search |
| MedicineSearch.HitsForBounded | my-vapi-tools/symptom_search_pipeline.py:353-368 | one medicine adds at most max_results hits, each rated and tagged with it |
| MedicineSearch.CollectedAppend | my-vapi-tools/symptom_search_pipeline.py:336-370 | the hits of a + b are those of a followed by those of b, in medicine order |
| MedicineSearch.CollectedHits | my-vapi-tools/symptom_search_pipeline.py:356-370 | every hit is rated and was found for one of the medicines |
| MedicineSearch.CollectedBounded | my-vapi-tools/symptom_search_pipeline.py:355 | at most max_results hits per medicine in total |
| MedicineSearch.SearchedSpec | my-vapi-tools/symptom_search_pipeline.py:372-383 | success exactly when every search returned; the total equals the number of results; an error has no results and carries the first failure's message |
| MedicineSearch.TruncatesBeforeFilter | my-vapi-tools/symptom_search_pipeline.py:355-367 | the cut to max_results comes before the rating filter: an unrated first result hides a rated second one |
| Response.JoinSymptoms | my-vapi-tools/symptom_search_pipeline.py:398 | the join succeeds exactly when all symptoms are strings |
| Response.ApologyNamesSymptoms | my-vapi-tools/symptom_search_pipeline.py:397-398 | the apology names every symptom and recommends a healthcare professional |
| Response.FormattingIssueAdvises | my-vapi-tools/symptom_search_pipeline.py:448-449 | the formatting notice recommends a healthcare professional |
| Response.NothingFoundAnswer | my-vapi-tools/symptom_search_pipeline.py:396-398 | on a search error or no results, the apology (or the notice for non-string symptoms), whatever the model |
| Response.NonStringSymptomAnswer | my-vapi-tools/symptom_search_pipeline.py:396-449 | a non-string symptom makes the layer answer with the formatting notice |
| Response.FoundAnswer | my-vapi-tools/symptom_search_pipeline.py:425-449 | with products found, the model's stripped reply, or the notice when the completion fails |
| Response.FormatResponseStripped | my-vapi-tools/symptom_search_pipeline.py:396-449 | every answer has no surrounding whitespace |
| Pipeline.StepsAreCompletedLayers | my-vapi-tools/symptom_search_pipeline.py:506-551 | the steps are a prefix of the four; all four exactly on success; none exactly when the handler ran; only errors carry a message |
| Pipeline.NoSymptomsStopsEarly | my-vapi-tools/symptom_search_pipeline.py:506-512 | with no symptoms extracted, the result is the no-symptoms error, whatever the later backends |
| Pipeline.NoMedicinesStopsEarly | my-vapi-tools/symptom_search_pipeline.py:514-525 | symptoms for which layer 2 returns no medicine give the no-medicines error with the layer-1 record, the two steps symptom_extraction and medicine_recommendation, and its message |
| Pipeline.UnhashableSymptomFails | my-vapi-tools/symptom_search_pipeline.py:514-516 | a list or dict symptom fails the pipeline with the TypeError of the first one |
| Pipeline.FailsOnlyForUnhashable | my-vapi-tools/symptom_search_pipeline.py:501-551 | the pipeline fails exactly for such a symptom |
| Pipeline.CompletedRun | my-vapi-tools/symptom_search_pipeline.py:527-541 | a success holds some medicines, their search, and layer 4's answer for it |
| Pipeline.SearchFailureStillSucceeds | my-vapi-tools/symptom_search_pipeline.py:527-541 | a failing search still gives status "success", with layer 4's apology |
| Pipeline.VoiceResponseSpec | my-vapi-tools/symptom_search_pipeline.py:587-591 | the voice response is the natural response on success; otherwise it starts with the apology and ends with the message |
| Pipeline.SpokenAnswerStripped | my-vapi-tools/symptom_search_pipeline.py:446 | a successful run speaks an already-stripped answer |
| Pipeline.HeadacheFeverOffline | my-vapi-tools/symptom_search_pipeline.py:501-541 | with the model failing in layers 1 and 2, "I have a headache and fever" reaches the search with acetaminophen, ibuprofen, aspirin |

## Left out

- HTTP and the language model are parameters: `requests.get`/`session.get`, `raise_for_status`, `.json()` and the OpenAI client. A search is a function from the query to a decoded body or an exception message. A completion is a function from the attempt's token parameter to a reply text or an exception message. The prompts, the temperature and the model name only reach the backend, so they are not modelled.
- `json.loads` is a parameter. Parsed JSON is a datatype: numbers are kept as their text, and object keys are strings.
- Only ASCII is modelled for `lower()`, `split()` and `strip()`.
- Ratings are an integer that orders and signs them as the floats do, plus the text an f-string shows. Float arithmetic and rendering are not modelled. A rating or review count that is not a number is not modelled: in the source its comparison raises.
- The search body's shape is assumed: `organic_results` is a list of records with the expected field types. A malformed body that raises inside the layer-3 loop is, like any other error, the `api`'s failure for that medicine.
- A reply whose `message.content` is None is not modelled. In the source its `.strip()` raises inside the layer's `try`, with the same effect as a failed completion.
- Layer 4's prompt building also reads `severity`, `duration` and the results through `json.dumps`. These cannot raise on the records layers 1 and 3 produce, so only the symptoms join is modelled.
- `process_symptom_conversation`: deleting the proxy and other environment variables, and its outer handler, are not modelled. The `"Please try again"` default for `natural_response` cannot occur, since a success always has one.
- `search_products_for_symptoms`: the only exception its handler is modelled for is the one the tool's constructor raises (a missing API key). An exception inside the formatter cannot occur on the modelled data.
- Configuration (`.env` reading, checks of the API key), `print` logging, the Flask server, the Vapi client scripts and the test scripts are not part of this model. The test scripts only serve as evidence for the `MockVoiceReply` strings.
