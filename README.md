# Dial-driven steering in Dafny

This project models the deterministic core of a dial-driven text-steering system. An operator sets
named "dials" in [0, 1], such as love, irony, harmfulness or theory of mind. The system turns
those dials into embedding-space steering vectors, retrieval scores and rankings, Likert and band
labels, instructions and prompts for language and video models, per-character dial state for a tea
party of chatbots, and a conversation history. It also checks by semantic similarity whether a
generated answer moved in the intended direction.

The model is written over exact reals and unbounded integers. Python lists become `seq`, and
Python dictionaries, which keep insertion order, become sequences of key/value pairs (`Dicts.Dict`).
Objects whose fields the source updates become classes with `modifies` frames:

- the steering engines;
- the retrieval engine;
- a character's steering profile and the character manager;
- the conversation engine;
- the CSV writer of the pair converter.

Loops in the source, such as sentence chunking, the candidate loop of retrieval, grouping by
article, the validation loops, the conversation round and the message builders, are methods with
invariants. Each is proved against a specification function, and the properties the source
promises are proved about those functions as lemmas.

Everything the core calls but does not compute is a parameter of the model:

| collaborator | how it enters the model |
|---|---|
| square root | `sqrt` with `Vectors.IsSqrt`: non-negative, and squares back to its argument |
| sentence embedder | `Embed.Embedder`: a function from text to vectors of one dimension |
| PCA fit | the fitted components and variance ratios |
| FAISS search | the list of `(score, index)` hits |
| language models | functions from model, system prompt and user prompt to an optional reply |
| clock | the timestamp text; a conversation round reads it once per turn |
| `f"{v:.1f}"` formatting | a function from reals to text |
| random quote choice | the chosen quote; a conversation round draws one per turn |
| environment variables | the optional key texts `OPENROUTER_API_KEY`, `OPENAI_API_KEY` and `GOOGLE_API_KEY` |

Facts about norms, normalisation and cosine similarity are proved from `IsSqrt`; none of them is
assumed.

The modules follow the source files:

| module | file | contents |
|---|---|---|
| `Steering` | `steering.dfy` | `app/steering.py`: the loaders, the mean-difference vector, PCA-derived dimensions, `apply_steering`, feedback averages |
| `Validator` | `validator.dfy` | `app/semantic_dial_validator.py` |
| `Utils` | `utils.dfy` | `app/utils.py`: chunking, dial score, dial validation, grouping by article |
| `Retrieval` | `retrieval.dfy` | `app/retrieval.py`: index assembly and scored, reranked retrieval |
| `SemanticScale` | `semantic_scale.dfy` | `app/semantic_scale.py` |
| `MultiScale` | `multi_dimensional_scale.dfy` | `app/multi_dimensional_scale.py` |
| `TeaParty` | `tea_party_characters.dfy` | `app/tea_party_characters.py` |
| `TeaConversation` | `tea_party_conversation.dfy` | `app/tea_party_conversation.py` |
| `Gemma` | `llm.dfy` | `app/llm.py` |
| `OpenRouter` | `llm_api.dfy` | `app/llm_api.py` |
| `Veo` | `veo.dfy` | `app/veo_video_generator.py`: the generator's key check and the prompt texts |
| `ContrastivePairs` | `contrastive.dfy` | `convert_contrastive_pairs.py` |

Python's own idioms are modelled once, in shared modules:

| module | idioms |
|---|---|
| `Text` | `strip`, `split`, `join`, `in`, `replace`, `lower`, `capitalize`, integer formatting |
| `Lists` | slicing a prefix, comprehensions with a condition |
| `Sorting` | the stable `sorted(..., reverse=True)` |
| `Extremes` | `min`/`argmax` by a key, first element on ties |
| `Bands` | if/elif threshold chains |
| `Dicts` | ordered dictionaries |
| `Vectors` | numpy vector arithmetic |
| `Sums` | `sum` |
| `Wrappers` | `Option`/`Result` |

Choices the code makes, which the model keeps:

- The validation alignment is the share of the pole the dial points to: `low / (low + high)` below
  0.5, `high / (low + high)` from 0.5, and 0.5 when neither pole has any signal.
- `apply_steering` silently skips dial dimensions that have no learned vector.
- The final renormalisation divides by `norm + 1e-8`, so a steered query has norm just below 1.
- `_select_best_candidate` returns an empty answer when there are no candidates.
- Derived PCA dimensions never overwrite an existing vector.

Three observations about the code are proved and noted, not corrected:

- `ContrastivePairs.LoadedPairsEmpty`: the converter labels every row `0.0`, and the labeled
  loader of the steering engine takes positive texts only from rows labelled above 0.5. So a file
  written by the converter yields no training pairs through that loader.
- `ContrastivePairs.ReportedTotalExact`: the total the converter prints, `len(pairs) * 2`,
  overstates the rows written as soon as one pair is skipped.
- `TeaConversation.RecentTurns`: `_get_recent_history(0)` returns the whole history, because
  `history[-0:]` is the whole list.

## Model

| member | source | states |
|---|---|---|
| Steering.LoadLoveHate | app/steering.py:121-138 | the positive and negative lists have equal length; every kept text, after stripping, is longer than 10 and shorter than 500 characters; entry i of both lists is the i-th kept stripped row |
| Steering.LoadLoveHateAligned | app/steering.py:124-138 | `positive[i]` and `negative[i]` are the stripped love and hate texts of one and the same input row |
| Steering.LoadLoveHateSnoc | app/steering.py:125-131 | one more row appends its stripped texts to both lists exactly when both pass the length test, and otherwise leaves both lists as they were |
| Steering.LoadLabeled | app/steering.py:140-151 | both lists have the length of the shorter of the two selections; `positive` is a prefix of the `text1` of the rows labelled above 0.5 and `negative` a prefix of the `text2` of the rows labelled below 0.5 |
| Steering.LoadLabeledIgnoresMidpoint | app/steering.py:143-144 | dropping every row labelled exactly 0.5 leaves the result unchanged |
| Steering.LoadLabeledNoPositives | app/steering.py:143-151 | when no label is above 0.5, both lists are empty |
| Steering.RawSteeringAt | app/steering.py:164-169 | component j of the raw vector is the mean of the positives' component j minus the mean of the negatives' component j |
| Steering.RawSteeringSwap | app/steering.py:165-169 | swapping the positive and negative embeddings negates the raw vector |
| Steering.RawSteeringPermutation | app/steering.py:165-169 | reordering the positive or the negative embeddings leaves the raw vector unchanged |
| Steering.MeanDiffStatsOf | app/steering.py:174-180 | `magnitude` equals `separation`; it is non-negative and zero exactly when the two means coincide; both standard deviations are non-negative |
| Steering.SteeringDirection | app/steering.py:169-172 | the learned vector has the embedding dimension |
| Steering.SteeringDirectionShape | app/steering.py:169-172 | the learned vector is a positive multiple of the mean difference and its norm is below 1, because of the 1e-8 guard |
| Steering.SteeringVectorEngine.ComputeSteeringVector | app/steering.py:153-185 | returns the normalised mean difference, records its statistics under `name` and no other key, and leaves the vectors alone |
| Steering.Differences | app/steering.py:200 | one difference per pair, each `positive[i] - negative[i]`, all of the embedding dimension |
| Steering.PcaStatsOf | app/steering.py:232-236 | the statistics of the dimension taken from component t: labelled `pca_derived`, carrying component t's variance ratio, with a magnitude in [0, 1) that is zero exactly when the component is |
| Steering.SemanticMappingShape | app/steering.py:214-220 | the mapping has five pairwise distinct dimension names |
| Steering.DerivedStep | app/steering.py:222-236 | one turn of the component loop: component 0 is skipped; component i adds its dimension, with the normalised component and its statistics, only when the dimension has no vector yet |
| Steering.DerivedVectorsKeys | app/steering.py:222-230 | after the loop a dimension has a vector exactly when it had one before or a component from 1 on named it; existing vectors keep their values |
| Steering.DerivedValues | app/steering.py:226-236 | each dimension added from component t holds the normalised component t and the statistics of component t |
| Steering.DerivedStatsKeys | app/steering.py:226-236 | the statistics gain exactly the added dimensions, and every other entry keeps its value |
| Steering.DerivedVectorsDim | app/steering.py:227-230 | every derived vector has the embedding dimension |
| Steering.SteeringVectorEngine.ApplyFit | app/steering.py:222-236 | the vectors and the statistics after the component loop are the derivation functions applied to the state before it |
| Steering.SteeringVectorEngine.DeriveSemanticDimensions | app/steering.py:187-239 | with fewer than five pairs nothing changes; otherwise exactly the absent dimensions named by components 1 to 4 are added, each with the normalised component and its statistics, and no existing vector (`love` included) is overwritten |
| Steering.DialStrength | app/steering.py:262-263 | dial 0 gives -strength, 0.5 gives 0 and 1 gives +strength; for a positive strength the sign follows the dial's side of 0.5 |
| Steering.SteeredSum | app/steering.py:258-266 | the steered sum has the dimension of the query embedding |
| Steering.SteeredSumIgnoresUnknown | app/steering.py:260-261 | dials for dimensions without a learned vector contribute nothing: removing them leaves the sum unchanged |
| Steering.SteeredSumNeutral | app/steering.py:258-266 | with every dial at 0.5 the sum before normalisation is the query embedding itself |
| Steering.SteeredSumOrder | app/steering.py:260-266 | the sum does not depend on the order of the dials |
| Steering.SteeredSumSingle | app/steering.py:263-266 | one known dial adds its vector scaled by `(value - 0.5) * 2 * strength` |
| Steering.SteeringVectorEngine.ApplySteering | app/steering.py:241-271 | returns the normalised query-plus-contributions sum, built on a copy so the query is untouched |
| Steering.SteeringVectorEngine.constructor | app/steering.py:41-42 | an engine starts with no vectors and no statistics |
| Steering.UpdateAveragesLookup | app/steering.py:355-363 | every dimension in the feedback takes one step `(avg * n + val) / (n + 1)` from its old average (0 when new); every other dimension keeps its average |
| Steering.FirstSight | app/steering.py:356-363 | storing 0 for a new dimension and then stepping equals stepping from a default of 0 |
| Steering.UpdateAveragesDistinct | app/steering.py:355-363 | the averages keep distinct dimension keys |
| Steering.StepAverage | app/steering.py:356-363 | one pass of the dial loop: the dimension's average moves one running-average step, starting from 0 when it is new |
| Steering.AccumulateAverages | app/steering.py:355-363 | the dial loop yields the averages after every dial has taken its step, in dial order |
| Steering.RecordPreference | app/steering.py:350-365 | a further feedback adds one to the user's count |
| Steering.Replay | app/steering.py:350-365 | after a user's feedbacks the count is how many there were |
| Steering.RunningFromIsMean | app/steering.py:360-363 | the running average times the number of values is their sum, so it is the arithmetic mean |
| Steering.ReplayAverage | app/steering.py:350-365 | when every feedback of a user sets a dimension, its stored average is the running average, hence the mean, of the values given |
| Steering.NeutralDefaults | app/steering.py:371 | the five dimensions love, commitment, belonging, trust and growth, each at 0.5 |
| Steering.AdaptiveSteeringEngine.constructor | app/steering.py:321-324 | the history and the user preferences start empty |
| Steering.AdaptiveSteeringEngine.RecordFeedback | app/steering.py:326-365 | appends exactly one history entry; for an identified user, replaces that user's preference by one feedback step from the old (or fresh) one; otherwise the preferences are unchanged |
| Steering.AdaptiveSteeringEngine.GetUserDefaults | app/steering.py:367-371 | a known user's averages, or all five dimensions at 0.5 for an unknown user |
| Validator.AlignmentNoSignal | app/semantic_dial_validator.py:93-98 | when the two similarities do not sum to a positive number, the alignment is 0.5 on either side of the dial |
| Validator.AlignmentShares | app/semantic_dial_validator.py:93-98 | for the same similarities with a positive sum, a dial below 0.5 and a dial at or above 0.5 give alignments that add up to 1 |
| Validator.AlignmentRange | app/semantic_dial_validator.py:95-98 | with non-negative similarities the alignment lies in [0, 1] |
| Validator.AlignmentFavoursPole | app/semantic_dial_validator.py:93-98 | the alignment exceeds one half exactly when the response is more similar to the pole the dial points at (low below 0.5, high from 0.5 up) |
| Validator.ExpectedSimilarity | app/semantic_dial_validator.py:71 | `low * (1 - v) + high * v` is `low` at v = 0 and `high` at v = 1, and for v in [0, 1] it lies between the two |
| Validator.ScoreOfRange | app/semantic_dial_validator.py:62-79 | both similarities are cosines in [-1, 1] and `dial_value` echoes the dial |
| Validator.ScoreEntries | app/semantic_dial_validator.py:55-80 | one entry per dial that has descriptors, with the same keys in dial order |
| Validator.ScoreEntriesSnoc | app/semantic_dial_validator.py:55-80 | one more dial adds its score at the end exactly when it has descriptors |
| Validator.ValidateSteeringEffectiveness | app/semantic_dial_validator.py:32-82 | without a loaded model the result is empty; otherwise it is the dictionary built from the scores of the described dials, in dial order |
| Validator.ValidateStep | app/semantic_dial_validator.py:55-80 | one loop turn stores the dial's score under its dimension when it has descriptors and changes nothing otherwise |
| Validator.ValidateKeys | app/semantic_dial_validator.py:55-80 | for dials with distinct keys, the result holds exactly the dimensions that are both dials and described, and each entry's `dial_value` is that dial's value |
| Validator.ScoreEntriesAt | app/semantic_dial_validator.py:55-80 | entry i belongs to the i-th described dial and echoes its value |
| Validator.ScoreEntriesDistinct | app/semantic_dial_validator.py:55-80 | distinct dial keys give distinct score keys |
| Validator.ScoreEntriesEcho | app/semantic_dial_validator.py:55-80 | every scored dimension has descriptors and carries the value its dial has |
| Validator.ScoreEntriesCover | app/semantic_dial_validator.py:55-57 | every described dial has a score |
| Validator.Blend | app/semantic_dial_validator.py:175 | the blend `(1 - v) * low + v * high` has the embedding dimension |
| Validator.BlendTargets | app/semantic_dial_validator.py:164-178 | one blended target per described dial, all of the embedding dimension |
| Validator.BlendTargetsSnoc | app/semantic_dial_validator.py:164-178 | one more dial adds its blend at the end exactly when it has descriptors |
| Validator.EqualWeightsMean | app/semantic_dial_validator.py:183-191 | summing the targets with each weight `1 / count` gives their mean |
| Validator.SumOfOnes | app/semantic_dial_validator.py:178-186 | the weights, all 1.0, sum to their number |
| Validator.SelectBestCandidate | app/semantic_dial_validator.py:142-210 | no candidates give `""` and no scores; no described dial gives the first candidate and no scores; otherwise the chosen candidate is the first most similar to the equal-weight mean target, and its validation is its scores plus that similarity and the candidate count |
| Validator.SelectionIsArgmax | app/semantic_dial_validator.py:194-198 | the chosen index is at least as similar as every candidate and strictly more similar than every earlier one |
| Validator.ModelEntries | app/semantic_dial_validator.py:228-234 | one entry per model, under the model's name, in input order |
| Validator.CompareModelsSteering | app/semantic_dial_validator.py:212-236 | without a loaded model the result is empty; otherwise each response validated against the same dials, stored under its model's name, unranked |
| Validator.CompareStep | app/semantic_dial_validator.py:228-234 | one loop turn stores the model's validation under its name |
| Validator.CompareKeys | app/semantic_dial_validator.py:228-236 | for responses with distinct names, one entry per model, in input order |
| Utils.TotalLengthConcat | app/utils.py:101-125 | the summed sentence length of two lists joined is the sum of their summed lengths |
| Utils.CarryFromShape | app/utils.py:112-122 | the carried sentences end the chunk they come from, their summed length plus what was already taken stays below `overlap`, and the sentence just before them would not have fitted |
| Utils.CarryShape | app/utils.py:112-122 | the overlap carried into the next chunk is a suffix of the flushed chunk whose total length is below `overlap`, and it stops at the first sentence that would not fit |
| Utils.CarryOverlap | app/utils.py:112-122 | the backward overlap loop returns exactly the carried suffix and its total length |
| Utils.ChunkText | app/utils.py:81-131 | the chunking loop returns the chunks the packing rule defines, `[]` for empty text |
| Utils.FeedAllStep | app/utils.py:103-125 | one more sentence is one more turn of the loop body |
| Utils.JoinAllSnoc | app/utils.py:106-129 | flushing one more group appends its space-joined text |
| Utils.FeedAllShaped | app/utils.py:103-125 | the loop keeps its invariant: the new parts of the groups spell out the sentences seen so far, none is empty, the first group is all new, and each later group is the carried overlap of the one before followed by its new part |
| Utils.ChunkGroupsShape | app/utils.py:103-129 | sentence order is kept and every sentence appears: the new parts, in order, are exactly the input; the first chunk is all new; every later chunk starts with the overlap of the chunk before, and a chunk was closed only when the next sentence would have pushed it past `chunk_size` |
| Utils.ChunkCount | app/utils.py:93-129 | empty text gives no chunks; non-empty text with at least one sentence gives at least one chunk |
| Utils.ChunkSingle | app/utils.py:103-129 | sentences whose total length is at most `chunk_size` stay together in a single chunk |
| Utils.FeedAllTogether | app/utils.py:103-125 | while the sentences fit, nothing is flushed and the current chunk holds all of them |
| Utils.DialVector | app/utils.py:154-155 | one value per listed key |
| Utils.DialScore | app/utils.py:150-170 | the score lies in [0, 1] and is 0.5 when the two dictionaries share no dial |
| Utils.DialScoreIsCosine | app/utils.py:158-168 | with common keys and non-zero norms the score is the cosine similarity of the two dial vectors mapped from [-1, 1] onto `(sim + 1) / 2` |
| Utils.DialScoreRange | app/utils.py:150-170 | the score lies in [0, 1] |
| Utils.DialScoreNeutral | app/utils.py:150-163 | a dial vector of all zeros, on either side, gives 0.5 |
| Utils.DotDialVectors | app/utils.py:158 | the dot product of the two dial vectors is the sum over the keys of the products of the two values |
| Utils.DotDialVectorsPermute | app/utils.py:154-158 | reordering the keys leaves the dot product unchanged |
| Utils.DialScoreOrderFree | app/utils.py:154-170 | the score does not depend on the order of the listed keys |
| Utils.DialScoreAnyOrder | app/utils.py:148-155 | any repeat-free listing of the common keys, such as the sorted one, gives the same score as the model's listing |
| Utils.CommonKeysShape | app/utils.py:148 | the common keys have no repeats and are exactly the keys the two dictionaries share |
| Utils.DialScoreSymmetric | app/utils.py:134-170 | the score is symmetric in its two arguments |
| Utils.ValidateDials | app/utils.py:209-224 | true exactly when every value lies in [0, 1]; the empty dictionary is valid |
| Utils.AllInRangePut | app/utils.py:209-224 | storing an in-range value keeps a valid dictionary valid |
| Utils.Max | app/utils.py:260-263 | `max` is at least both arguments and equals one of them |
| Utils.MergeChunksByArticle | app/utils.py:227-269 | returns the groups built in first-seen order, stably sorted by `max_score`, highest first |
| Utils.MaxScoreIsMax | app/utils.py:259-263 | the group's score is at least every member's `final_score` and is the score of some member |
| Utils.GroupResultsLookup | app/utils.py:238-263 | an article has a group exactly when some result belongs to it; the group has the first chunk's title, source and dials, every chunk's entry in input order, and the largest score |
| Utils.AddResultLookup | app/utils.py:240-263 | one turn of the grouping loop adds the result to its own article's group and leaves every other article's group alone |
| Utils.GroupOfSnoc | app/utils.py:253-263 | a further chunk of an article adds its entry at the end and may raise the largest score |
| Utils.GroupResultsKeys | app/utils.py:238-251 | the groups have distinct article ids, one per article that some result belongs to |
| Utils.SumOfUpdate | app/utils.py:253-257 | replacing one group changes the chunk total by the difference of the two |
| Utils.GroupResultsTotal | app/utils.py:238-263 | the groups hold `len(results)` chunks between them |
| Utils.MergedShape | app/utils.py:265-267 | the merged list is a permutation of the groups, sorted by `max_score` descending, holding every result's chunk, with groups of equal score in first-seen order |
| Retrieval.AnnotationShape | app/retrieval.py:100-106 | a chunk's annotation names `love`, `commitment`, `belonging`, `trust` and `growth` once each and in that order, each with the article's `<dial>_score`, or 0.5 when the article lacks it |
| Retrieval.EmbedAll | app/retrieval.py:113 | one embedding per chunk, in chunk order |
| Retrieval.IndexLengths | app/retrieval.py:77-107 | the chunk, metadata and annotation lists built from the articles have the same length |
| Retrieval.IndexNumbering | app/retrieval.py:88-97 | every chunk's `chunk_index` is below its `total_chunks`, and the chunks of one article are numbered 0, 1, … in turn |
| Retrieval.BlockNumbering | app/retrieval.py:88-97 | chunk i of an article of n chunks has `chunk_index` i, `total_chunks` n and the article's id |
| Retrieval.IndexAnnotations | app/retrieval.py:100-107 | every stored annotation names the five dials in order |
| Retrieval.IndexSnoc | app/retrieval.py:81-107 | one more article appends its chunks, its metadata block and its annotation block to the three lists |
| Retrieval.BlockSnoc | app/retrieval.py:88-107 | one more chunk of an article appends that chunk, its metadata and the article's annotation |
| Retrieval.ChunkArticles | app/retrieval.py:77-107 | the loop over the articles builds exactly the chunk, metadata and annotation lists of the index |
| Retrieval.AppendArticle | app/retrieval.py:82-107 | one article's chunks (512 characters, 50 of overlap) are appended with metadata and annotation for each |
| Retrieval.RetrievalEngine.constructor | app/retrieval.py:30-46 | a new engine keeps the given steering engine, has no index and empty document, metadata and annotation lists |
| Retrieval.RetrievalEngine.RebuildIndex | app/retrieval.py:63-136 | articles with no chunks at all raise the `IndexError` of `embeddings.shape[1]` on the empty embedding array and leave the engine as it was; otherwise the engine is indexed, the stored lists are the chunks, metadata and annotations of the articles, the embeddings are those of the chunks, and the statistics report the article count, chunk count and embedding dimension |
| Retrieval.CandidateCount | app/retrieval.py:178-179 | the search is asked for `3 * top_k` hits with reranking and `top_k` without, but never more than the number of chunks |
| Retrieval.FinalScoreBetween | app/retrieval.py:200 | the combined score lies between the similarity and the dial score and grows with each, strictly with the similarity |
| Retrieval.Resolve | app/retrieval.py:196 | a negative index counts from the end of the list, as Python indexing does |
| Retrieval.CandidatesShape | app/retrieval.py:188-209 | scoring fails exactly when some hit lies below `-len(documents)`; otherwise there is one candidate per hit below `len(documents)`, in hit order, built from the chunk that hit names |
| Retrieval.CandidatesFail | app/retrieval.py:189-197 | scoring fails exactly when some hit lies below `-len(documents)` |
| Retrieval.CandidatesKept | app/retrieval.py:189-209 | a successful scoring has one candidate per kept hit, built from that hit's chunk |
| Retrieval.CandidatesNoneSticks | app/retrieval.py:189-197 | once a hit below `-len(documents)` has been met, the scoring fails whatever follows |
| Retrieval.CandidatesSnoc | app/retrieval.py:189-209 | one more hit at or beyond the number of chunks is skipped, and one within range appends its candidate |
| Retrieval.RetrievalEngine.QueryVector | app/retrieval.py:164-175 | the query vector has the embedding dimension; the steering method is "learned" exactly when steering is asked for and an engine with at least one learned vector exists, and "none" otherwise, in which case the vector is the plain query embedding |
| Retrieval.RetrievalEngine.ScoreHits | app/retrieval.py:188-209 | the scoring loop computes exactly the candidates of the hits, or the `IndexError` |
| Retrieval.RankedShape | app/retrieval.py:212-213 | reranking keeps every candidate, sorts by descending final score and keeps hit order among equal scores; without reranking the order is unchanged |
| Retrieval.SteeringMethod | app/retrieval.py:168-175 | the reported method is `learned` exactly when steering was applied, and `none` otherwise |
| Retrieval.RetrievalEngine.Retrieve | app/retrieval.py:138-225 | without an index the call fails with "Index not initialized"; otherwise the result holds the first `top_k` of the ranked candidates of the hits for the (possibly steered) query vector, the candidate count and the steering method, and a too negative hit fails the call |
| Retrieval.RetrievedShape | app/retrieval.py:211-222 | a successful query returns at most `top_k` documents, a prefix of the ranked candidates, exactly `top_k` when there are enough, with each final score being 70% similarity plus 30% dial score |
| SemanticScale.ScalePointsShape | app/semantic_scale.py:44-147 | the built-in scale has seven anchors, each with an example, at strictly ascending positions from 0.0 to 1.0 |
| SemanticScale.Trunc | app/semantic_scale.py:311 | Python's `int()` on a real truncates toward zero: the result is the integer part of a non-negative value and rounds a negative one up |
| SemanticScale.DialToLikert | app/semantic_scale.py:298-312 | the Likert point is always between 1 and 7 |
| SemanticScale.DialToLikertMonotone | app/semantic_scale.py:311-312 | a larger dial value never gives a lower Likert point |
| SemanticScale.LikertToDial | app/semantic_scale.py:314-320 | the conversion fails exactly outside 1..7 and otherwise gives a dial value in [0, 1] |
| SemanticScale.LikertRoundTrip | app/semantic_scale.py:311-320 | every Likert point 1..7 comes back unchanged from the trip to a dial value and back |
| SemanticScale.DialRoundTrip | app/semantic_scale.py:311-320 | a dial value in [0, 1) comes back from the trip to the Likert scale as the start of its sixth of the interval, at most the value and less than 1/6 below it |
| SemanticScale.GetSemanticAnchor | app/semantic_scale.py:201-212 | the anchor returned is at minimal distance from the dial value, and every earlier anchor is strictly farther, so ties go to the first |
| SemanticScale.FirstAbove | app/semantic_scale.py:224-229 | the position where the walk stops: every earlier anchor lies at or below the dial value and the anchor there lies above it |
| SemanticScale.GetInterpolatedDescriptors | app/semantic_scale.py:214-255 | the walk over the anchors returns the first anchor when none lies at or below the value, the last when none lies above it, and otherwise the blend of the two bracketing anchors |
| SemanticScale.FirstAboveAt | app/semantic_scale.py:224-229 | the walk's stopping point is the first anchor above the dial value |
| SemanticScale.InterpolatedEnds | app/semantic_scale.py:231-234 | on an ascending scale, a value below the first anchor gives the first anchor, and one at or above the last gives the last |
| SemanticScale.ScaleEnds | app/semantic_scale.py:231-234 | on the built-in scale, a dial below 0.0 gives "Strong Hate" and one at or above 1.0 gives "Strong Love" |
| SemanticScale.BlendShape | app/semantic_scale.py:236-255 | between two anchors the primary is the nearer one, with weight in [0.5, 1] equal to one minus its relative distance; the secondary label appears exactly when that weight is below 0.8 and the secondary descriptors exactly when it is below 0.7 |
| SemanticScale.InterpolatedBetween | app/semantic_scale.py:224-255 | when the walk stops inside the scale, the value lies between the two bracketing anchors and the result is their blend |
| SemanticScale.Interpretation | app/semantic_scale.py:268-285 | the interpretation is one of the seven texts, and the neutral one for values from 0.45 up to 0.55 |
| SemanticScale.InterpretationBands | app/semantic_scale.py:268-285 | the interpretation is the k-th of the seven texts, where k counts the edges 0.15, 0.30, 0.45, 0.55, 0.70 and 0.85 at or below the value, and a larger value never gets an earlier text |
| MultiScale.DimensionTableShape | app/multi_dimensional_scale.py:40-132 | the descriptor table covers exactly the four dimensions, once each, in the order of `DIMENSIONS` |
| MultiScale.Interpretations | app/multi_dimensional_scale.py:167-180 | there is one interpretation text per band, five in all |
| MultiScale.Interpretation | app/multi_dimensional_scale.py:167-180 | the interpretation is one of the five texts of the dimension, and "Balanced" for values from 0.4 up to 0.6 |
| MultiScale.InterpretationBands | app/multi_dimensional_scale.py:167-180 | the interpretation is the k-th of the five texts, where k counts the edges 0.2, 0.4, 0.6 and 0.8 at or below the value, and a larger value never gets a text nearer the low pole |
| MultiScale.GetDimensionInfo | app/multi_dimensional_scale.py:134-165 | an unknown dimension raises "Unknown dimension: <name>"; a known one returns its info, echoing the dimension and the dial value |
| MultiScale.DimensionInfoBands | app/multi_dimensional_scale.py:141-164 | below 0.33 the info is the low label with the first three low descriptors and the low example; below 0.67 it is "Balanced <name>" with one descriptor from each pole; otherwise the high label with the first three high descriptors; only the middle band is "Moderate" |
| MultiScale.BandsAgree | app/multi_dimensional_scale.py:141-180 | the three label bands and the five interpretation bands agree at the poles and overlap in the middle |
| MultiScale.CreateSteeringPrompt | app/multi_dimensional_scale.py:182-214 | the prompt wraps exactly the instructions for the known dials, in the order of the dictionary |
| MultiScale.InstructionsShape | app/multi_dimensional_scale.py:189-203 | there is one instruction per known dial, the i-th belongs to the i-th known dial, and unknown dials are skipped |
| MultiScale.InstructionNamesDimension | app/multi_dimensional_scale.py:196-201 | every instruction line begins with "- <dimension name>: " |
| MultiScale.DimensionInfos | app/multi_dimensional_scale.py:255-258 | the infos succeed exactly when every dial names a known dimension and then have the dials' keys in the dials' order, each what `get_dimension_info` gives; otherwise the error names the first unknown dial |
| MultiScale.CharacterSteeringProfile.constructor | app/multi_dimensional_scale.py:220-231 | a new profile keeps its id, name, personality and scale and starts with all four dials at 0.5 |
| MultiScale.CharacterSteeringProfile.UpdateDial | app/multi_dimensional_scale.py:233-239 | the outcome and the new dials are those of `UpdateResult` and `UpdatedDials`, and the profile keeps exactly the four dimensions with values in [0, 1] |
| MultiScale.UpdateResult | app/multi_dimensional_scale.py:235-238 | an update is accepted exactly when the dials hold the dimension and the value lies in [0, 1]; the unknown dimension is reported first |
| MultiScale.UpdateChangesOneDial | app/multi_dimensional_scale.py:233-239 | a refused update changes nothing; an accepted one sets exactly the dial it names; the keys stay the same and the values stay in [0, 1] |
| MultiScale.UpdateKeepsValid | app/multi_dimensional_scale.py:226-239 | dials keyed by the four dimensions with values in [0, 1] stay so under every update |
| MultiScale.ValidDistinct | app/multi_dimensional_scale.py:226-231 | dials keyed by the four dimensions hold each key once |
| MultiScale.CharacterSteeringProfile.GetSteeringPrompt | app/multi_dimensional_scale.py:241-247 | the profile's prompt is the steering prompt for its own name, personality and dials |
| MultiScale.CharacterSteeringProfile.CurrentState | app/multi_dimensional_scale.py:249-259 | the state echoes the dials and has one dimension entry per dial, keyed alike |
| MultiScale.CurrentStateOfValid | app/multi_dimensional_scale.py:249-259 | a profile with valid dials over the four-dimension scale always has a state, whose i-th dimension entry is the info of its i-th dial |
| TeaParty.Ids | app/tea_party_characters.py:12-78 | the ids of a character table, position by position |
| TeaParty.Defaults | app/tea_party_characters.py:12-78 | the default dials of a character table, position by position |
| TeaParty.CharacterColumns | app/tea_party_characters.py:12-78 | `CHARACTERS` holds the five ids purple_person, blue_hair, blonde_center, gray_beard and phone_person, in seating order, with their default dials |
| TeaParty.CharactersWellFormed | app/tea_party_characters.py:12-78 | the ids are distinct and every character's defaults name the four dimensions once each with values in [0, 1], so setting them can never be refused |
| TeaParty.FirstIndex | app/tea_party_characters.py:134 | the search stops at the first character that matches, or past the end when none does |
| TeaParty.FirstIndexOfId | app/tea_party_characters.py:134 | with distinct ids, the search by id finds each character at its own position |
| TeaParty.GetCharacterByName | app/tea_party_characters.py:163-165 | a character found by name is one of the table's characters and has that name |
| TeaParty.CharacterByNameFirst | app/tea_party_characters.py:163-165 | `get_character_by_name` returns None exactly when no character has the name, and otherwise the first character with it |
| TeaParty.CharacterById | app/tea_party_characters.py:134 | a character found by id is one of the table's characters and has that id |
| TeaParty.CharacterByIdAt | app/tea_party_characters.py:132-136 | the search by id finds a character exactly for the five ids, each at its own seat |
| TeaParty.TeaPartyCharacterManager.constructor | app/tea_party_characters.py:84-103 | the new manager has one fresh profile per character of `CHARACTERS`, keyed by id in table order, each holding exactly that character's defaults |
| TeaParty.BuildProfiles | app/tea_party_characters.py:89-103 | the initialisation loop makes one distinct fresh profile per character, keyed by its id, in table order, set to its defaults |
| TeaParty.NewProfile | app/tea_party_characters.py:91-101 | one step of the initialisation: a fresh profile of the character, set to its defaults |
| TeaParty.ApplyDials | app/tea_party_characters.py:99-101 | applying defaults that name the profile's dials with values in [0, 1] accepts every update and leaves exactly those dials |
| TeaParty.TeaPartyCharacterManager.GetCharacter | app/tea_party_characters.py:105-109 | an unknown id raises "Unknown character: <id>"; a known one returns the profile stored under it |
| TeaParty.TeaPartyCharacterManager.KeyIndexOfId | app/tea_party_characters.py:103 | the profiles are keyed by the table's ids: the profile under an id is that of the first character with it, and an id is known exactly when it is in the table |
| TeaParty.TeaPartyCharacterManager.LookupAtId | app/tea_party_characters.py:103 | the profile stored under the id of the character at position i is the profile at position i |
| TeaParty.TeaPartyCharacterManager.UpdateCharacterDial | app/tea_party_characters.py:111-114 | an unknown character is refused with nothing changed; otherwise that character's dials take the profile update and every other character keeps its dials |
| TeaParty.TeaPartyCharacterManager.GetAllCharacterStates | app/tea_party_characters.py:116-130 | one state per character in table order, each the profile's current state with the character's appearance and position |
| TeaParty.CollectStates | app/tea_party_characters.py:118-128 | the loop over the characters collects one state per character in table order |
| TeaParty.StateOf | app/tea_party_characters.py:123-127 | one state is the profile's current state with appearance and position |
| TeaParty.TeaPartyCharacterManager.GetCharacterInfo | app/tea_party_characters.py:132-144 | an id not in the table raises "Unknown character: <id>"; otherwise the result is that character's data with its profile's current state |
| TeaParty.TeaPartyCharacterManager.ResetCharacterDials | app/tea_party_characters.py:146-154 | an unknown character is refused with nothing changed; otherwise that character's dials become exactly its defaults and every other character keeps its dials |
| TeaParty.TeaPartyCharacterManager.ResetAt | app/tea_party_characters.py:152-154 | resetting the profile at one position leaves the others' dials as they were |
| TeaParty.ResetProfile | app/tea_party_characters.py:152-154 | a reset profile holds exactly the character's defaults |
| TeaParty.TeaPartyCharacterManager.ResetAllDials | app/tea_party_characters.py:156-159 | afterwards every character holds exactly its defaults, whatever it held before, so a second reset changes nothing |
| TeaConversation.NewTurn | app/tea_party_conversation.py:21-36 | a new turn keeps every given field, and a missing dial map becomes the empty map |
| TeaConversation.ToDict | app/tea_party_conversation.py:38-47 | the record carries every field of the turn unchanged |
| TeaConversation.ResolveApiKey | app/tea_party_conversation.py:61-63 | the key is the first non-empty one of the argument, `OPENROUTER_API_KEY` and `OPENAI_API_KEY`, and the engine is refused exactly when all three are missing or empty |
| TeaConversation.ModelFallback | app/tea_party_conversation.py:167 | an unknown model key calls the model behind "gpt-4"; through OpenRouter every key calls the free model, and directly "gpt-4" and unknown keys call "gpt-4" |
| TeaConversation.TextResponse | app/tea_party_conversation.py:163-185 | the reply is the model's text stripped, or the fallback quote when the call fails |
| TeaConversation.PyTail | app/tea_party_conversation.py:192 | Python's `xs[-n:]` is a suffix of the list |
| TeaConversation.Lines | app/tea_party_conversation.py:193-195 | one "name: text" line per turn, in order |
| TeaConversation.RecentTurns | app/tea_party_conversation.py:187-197 | an empty history gives "This is the start of the conversation."; otherwise the lines of the last min(n, len) turns, oldest first, joined by newlines, and for n = 0 the whole history, as Python's `[-0:]` gives |
| TeaConversation.RecentLines | app/tea_party_conversation.py:194-195 | each line of the view names the speaker before what they said |
| TeaConversation.TeaPartyConversationEngine.GetRecentHistory | app/tea_party_conversation.py:187-197 | the loop builds exactly the recent-history text |
| TeaConversation.UserPrompt | app/tea_party_conversation.py:130-132 | the user prompt opens with the context when one is given, and otherwise with the invitation to talk about the current topic, then asks for 2-3 sentences as the character |
| TeaConversation.SpokenTurn | app/tea_party_conversation.py:135-156 | the turn carries the speaker's id, name and dials and the model key; its text is the stripped reply or the fallback; a video URL is present only when a video was asked for and completed |
| TeaConversation.NewEngine | app/tea_party_conversation.py:53-92 | a missing chat key is refused with its message; otherwise, with no video generator yet and no Google key, the constructor fails with "Google API key required. ..."; otherwise the new engine holds the key, the shared video generator, a fresh character manager at its defaults, an empty history and the opening topic "tea and pastries" |
| TeaConversation.TeaPartyConversationEngine.constructor | app/tea_party_conversation.py:61-92 | the engine holds the key, the model table, a fresh manager at the characters' defaults, an empty history and the opening topic |
| TeaConversation.TeaPartyConversationEngine.Response | app/tea_party_conversation.py:94-161 | an unknown character is refused with "Unknown character: <id>"; otherwise the turn is that character's and carries the clock reading of the call |
| TeaConversation.TeaPartyConversationEngine.ResponseTurn | app/tea_party_conversation.py:112-156 | the turn of a known speaker is the spoken turn under the steering prompt of its current dials, the user prompt and the model the key selects |
| TeaConversation.TeaPartyConversationEngine.GenerateResponse | app/tea_party_conversation.py:94-161 | the result is exactly the turn or the error of `Response` in the state before the call; a refused call leaves the history alone; a successful one appends exactly the one turn it returns, stamped with the clock reading of the call |
| TeaConversation.TeaPartyConversationEngine.AppendTurn | app/tea_party_conversation.py:159 | the history grows by the turn and nothing else changes |
| TeaConversation.RoundOrder | app/tea_party_conversation.py:274-275 | the speaking order is the one given, or the character ids in seating order |
| TeaConversation.Stopped | app/tea_party_conversation.py:278-284 | a round stops at its first refused reply: the turns before it are exactly the accepted replies, all of them when none is refused, and the error is that reply's |
| TeaConversation.StoppedSnoc | app/tea_party_conversation.py:278-284 | one more reply is ignored after a refusal; otherwise its turn is added, or its error stops the round |
| TeaConversation.StoppedStays | app/tea_party_conversation.py:278-284 | once a reply has been refused, the replies after it change nothing |
| TeaConversation.StopAtRefusal | app/tea_party_conversation.py:277-284 | the loop keeps the turns of the replies in order up to the first refused one, exactly as `Stopped` says |
| TeaConversation.TeaPartyConversationEngine.Replies | app/tea_party_conversation.py:278-283 | one reply per id of the order: the `i`-th is `generate_response` without context for the `i`-th id, with quote `fallbacks(i)` and clock reading `clock(i)` |
| TeaConversation.TeaPartyConversationEngine.RoundTurns | app/tea_party_conversation.py:278-284 | every turn of a round is exactly the turn `generate_response` gives its speaker with the turn's own quote and clock reading; a stopped round stops at the id `generate_response` refuses |
| TeaConversation.TeaPartyConversationEngine.RoundSpeakers | app/tea_party_conversation.py:274-284 | turn i is the i-th speaker's, stamped `clock(i)`; the round runs to the end exactly when every id is in the character table, and otherwise stops at the first id that is not, with "Unknown character: <id>" |
| TeaConversation.TeaPartyConversationEngine.RunConversationRound | app/tea_party_conversation.py:257-289 | the history gains exactly the turns of the round before its first refused id; the result is those turns, one per id, when no id is refused, and that id's error otherwise; turn i is `generate_response`'s turn for the i-th id in the starting state, stamped with its own clock reading and given its own fallback quote |
| TeaConversation.TeaPartyConversationEngine.SetTopic | app/tea_party_conversation.py:291-293 | the topic is replaced and the history is unchanged |
| TeaConversation.TeaPartyConversationEngine.UpdateCharacterDial | app/tea_party_conversation.py:295-297 | the manager's update, with the history (and so the dials recorded in past turns) unchanged |
| TeaConversation.TeaPartyConversationEngine.GetAllCharacterStates | app/tea_party_conversation.py:299-301 | the manager's states, one per character in seating order |
| TeaConversation.TeaPartyConversationEngine.GetConversationHistory | app/tea_party_conversation.py:303-305 | one record per turn, in history order |
| TeaConversation.TeaPartyConversationEngine.ClearHistory | app/tea_party_conversation.py:307-309 | the history becomes empty and the topic is unchanged |
| Gemma.InstructionsOf | app/llm.py:80-100 | one instruction per dial, in the given order |
| Gemma.ActiveFired | app/llm.py:80-100 | the collected instructions are those of the dials that fire, in the fixed order |
| Gemma.FiredDialsExactly | app/llm.py:83-100 | a dial fires exactly when its value, or 0.5 when it is missing, is at least 0.7, so a missing dial never fires and 0.7 itself does |
| Gemma.BuildDialInstruction | app/llm.py:74-105 | with no dial firing the instruction is "Provide a balanced, informative response"; otherwise it is the instructions of the fired dials, in the order love, commitment, belonging, trust, growth, joined by ". " with a closing full stop |
| Gemma.DialInstructionDefault | app/llm.py:74-105 | the default instruction comes back exactly when none of the five dials reaches 0.7 |
| Gemma.ContextPart | app/llm.py:170-172 | each part names its number and the title ("Document" when missing) and holds the first 500 characters of the text, or all of it when shorter |
| Gemma.ContextParts | app/llm.py:169-172 | one part per document among the first `max_docs`, numbered from 1 |
| Gemma.BuildContext | app/llm.py:165-174 | the loop builds those parts and joins them with blank lines |
| Gemma.EmphasisEntries | app/llm.py:189-193 | one "Name: value" entry per dial of at least 0.6, in the order of the dictionary |
| Gemma.JoinEmpty | app/llm.py:189-193 | joining non-empty entries is empty exactly when there are none |
| Gemma.EntriesNonEmpty | app/llm.py:189-193 | every emphasis entry is non-empty |
| Gemma.EmphasisAreas | app/llm.py:189-204 | "Balanced" when no dial is at least 0.6; otherwise the entries of those dials joined by ", " |
| Gemma.EmphasisAreasBalanced | app/llm.py:189-204 | stated over the dial values themselves: "Balanced" exactly when every dial is below 0.6, and otherwise the joined entries |
| Gemma.BuildPrompt | app/llm.py:195-211 | the prompt opens with the user-turn marker and ends with the model-turn marker |
| Gemma.BuildPromptShape | app/llm.py:195-211 | between those markers the prompt holds the context, the dial instruction, the emphasis areas and the question, in that order, each right after its heading |
| Gemma.HeadOpensUserTurn | app/llm.py:195 | the template opens with `<start_of_turn>user` and a newline |
| Gemma.TailOpensModelTurn | app/llm.py:210-211 | the template ends with `<start_of_turn>model` and a newline |
| Gemma.ExtractResponse | app/llm.py:215-231 | the reply is always stripped: stripping it again changes nothing |
| Gemma.ExtractResponseShape | app/llm.py:215-231 | when the prompt occurs anywhere, the first `len(prompt)` characters are dropped wherever it occurs; otherwise the reply is what follows the last model-turn marker, or the whole text; the markers `<end_of_turn>` are then replaced in one pass |
| OpenRouter.NewClient | app/llm_api.py:17-36 | with neither an explicit key nor `OPENROUTER_API_KEY` the constructor fails with "OPENROUTER_API_KEY not found. ..."; otherwise the client holds the explicit key if truthy, else the environment's, with the given model, site and the chat-completions URL |
| OpenRouter.LoveBand | app/llm_api.py:46-56 | the if/elif chain picks band k, the number of edges 0.2, 0.4, 0.6 and 0.8 at or below the love value |
| OpenRouter.BuildDialInstruction | app/llm_api.py:38-58 | the tone is that of band k, where k counts the edges 0.2, 0.4, 0.6 and 0.8 at or below `dials.get('love', 0.5)` |
| OpenRouter.ToneByLove | app/llm_api.py:38-58 | only the love dial decides the tone, a missing one gives the neutral tone, and a larger love value never gives a colder band |
| OpenRouter.SystemMessage | app/llm_api.py:81-85 | the system message always opens with "You are a helpful AI assistant.", is longer exactly when dials were given and are non-empty, and then continues with "IMPORTANT: " and the tone |
| OpenRouter.ContextItemsSnoc | app/llm_api.py:91-92 | one more document appends its numbered item |
| OpenRouter.BuildUserMessage | app/llm_api.py:87-94 | the `+=` loop builds exactly the user message: the numbered first three documents under the header, then the query |
| OpenRouter.ContextItemsPrefix | app/llm_api.py:91-92 | the items of the first k documents are a prefix of the items of all of them |
| OpenRouter.UserMessage | app/llm_api.py:87-94 | the user message always ends with "Query: <prompt>", opens with "Context:" when context was given, and is the bare query otherwise |
| OpenRouter.UserMessageFirstThree | app/llm_api.py:91 | a document after the third never reaches the message |
| Veo.NewVeoGenerator | app/veo_video_generator.py:18-30 | the generator is refused with "Google API key required. ..." exactly when neither the explicit key nor `GOOGLE_API_KEY` is non-empty; otherwise it holds one of them, the explicit one first |
| Veo.GetVeoGenerator | app/veo_video_generator.py:356-363 | an existing generator is reused; the first call fails exactly when `GOOGLE_API_KEY` is missing or empty |
| Veo.LevelOf | app/veo_video_generator.py:321-340 | a value above 0.7 is high, one below 0.3 is low, and everything else, both thresholds included, is in the middle |
| Veo.LevelMonotone | app/veo_video_generator.py:321-340 | a larger value never falls on a lower level |
| Veo.DescriptorsDistinct | app/veo_video_generator.py:321-340 | each level has its own expression, delivery and gaze wording |
| Veo.OnlyThreeDimensions | app/veo_video_generator.py:316-318 | states that agree on theory of mind, harmfulness and irony (each defaulting to 0.5) give the same prompt |
| Veo.SelfOtherUnread | app/veo_video_generator.py:316-318 | setting `self_other` never changes the prompt |
| Veo.MissingDimensionsMiddle | app/veo_video_generator.py:316-340 | without any of the three dimensions every descriptor takes its middle wording |
| Veo.CreateVideoPromptWithEmotion | app/veo_video_generator.py:296-354 | the shot prompt takes its gaze from the level of theory of mind, its expression from harmfulness and its delivery from irony, a level being high above 0.7 and low below 0.3, and a missing dimension counting as 0.5 |
| Veo.Lines | app/veo_video_generator.py:227-230 | one `name: "dialogue"` line per response, in input order |
| Veo.ConversationText | app/veo_video_generator.py:226-232 | the loop builds those lines and joins them with blank lines |
| Veo.ConversationTextSnoc | app/veo_video_generator.py:226-232 | a further response adds a blank line and its own line at the end; a single response gives its line alone |
| ContrastivePairs.CsvWriter.constructor | convert_contrastive_pairs.py:35 | a new writer has written nothing |
| ContrastivePairs.CsvWriter.WriteRow | convert_contrastive_pairs.py:36-51 | each `writerow` appends its one row |
| ContrastivePairs.ConvertContrastivePairs | convert_contrastive_pairs.py:34-51 | the file holds the header and then the rows of every pair, in input order |
| ContrastivePairs.WritePairs | convert_contrastive_pairs.py:38-51 | the loop appends exactly the data rows of the pairs to what the writer held |
| ContrastivePairs.DataRowsSnoc | convert_contrastive_pairs.py:38-51 | one more pair appends its own rows |
| ContrastivePairs.DataRowsComplete | convert_contrastive_pairs.py:43 | a pair with a missing or empty love or hate response emits nothing: the rows are those of the complete pairs alone |
| ContrastivePairs.DataRowsCount | convert_contrastive_pairs.py:43-51 | every complete pair emits exactly two rows |
| ContrastivePairs.DataRowsAt | convert_contrastive_pairs.py:45-51 | among complete pairs, rows 2j and 2j + 1 are the plain row and then the `prompt + " " + response` row of pair j |
| ContrastivePairs.RowsLabels | convert_contrastive_pairs.py:36-51 | the header is the first row and every other row is a data row labelled 0.0 |
| ContrastivePairs.ReportedTotalExact | convert_contrastive_pairs.py:43-54 | the printed total of twice the pair count equals the number of data rows exactly when no pair was skipped, and never falls below it |
| ContrastivePairs.Labeled | convert_contrastive_pairs.py:36-51 | reading the file back yields at most one labelled row per row written |
| ContrastivePairs.LabeledDissimilar | convert_contrastive_pairs.py:45-51 | every labelled row read back has label 0.0 |
| ContrastivePairs.LoadedPairsEmpty | convert_contrastive_pairs.py:45-51 | the labelled loader of the steering engine draws no positive and no negative texts from the converter's file, since no label is above 0.5 |
| Sorting.SortDesc | app/retrieval.py:212-213 | `sorted(..., reverse=True)` returns the same elements, as a multiset, as many as it was given |
| Sorting.SortDescSorted | app/retrieval.py:212-213 | the result of the descending sort is in non-increasing key order |
| Sorting.SortDescStable | app/utils.py:266-267 | the sort is stable: the elements of any one key keep their input order |
| Extremes.ArgMinBy | app/semantic_scale.py:208-212 | `min(..., key=...)` picks an element whose key is least, and no element before it has a key as small |
| Extremes.ArgMaxBy | app/semantic_dial_validator.py:196-197 | `argmax` picks an index whose key is greatest, and no index before it has a key as large |
| Text.LeadingSpaces | app/steering.py:126-127 | the whitespace run that `strip()` removes at the front ends at a non-space or at the end of the text |
| Text.KeptLength | app/steering.py:126-127 | the whitespace run that `strip()` removes at the back starts after a non-space or at the start of the text |
| Text.StripShape | app/steering.py:126-127 | `strip()` removes only whitespace, and its result neither starts nor ends with whitespace |
| Text.StripIdempotent | app/llm.py:219-229 | stripping twice gives what stripping once does |
| Text.IndexOfFirst | app/llm.py:218 | the search behind `prompt in generated_text` finds the first place the pattern occurs, and reports none only when it occurs nowhere |
| Text.Split | app/llm.py:222 | `split(sep)` gives at least one part, and exactly one when the separator does not occur |
| Text.SplitPartsFree | app/llm.py:222 | no part of `split(sep)` contains the separator |
| Text.SplitJoin | app/llm.py:222 | joining the parts of `split(sep)` with `sep` gives back the text |
| Text.JoinSnoc | app/veo_video_generator.py:232 | a further part adds the separator and that part at the end of the join |
| Text.NatToString | app/llm_api.py:92 | `str(n)` is the decimal digits that spell `n`, read left to right, with no leading zero except in "0" |
| Text.Lower | app/multi_dimensional_scale.py:172 | `lower()` on ASCII text keeps the length, turns each ASCII capital into its own lower-case letter and keeps every other character |
| Text.Capitalize | app/llm.py:190 | `capitalize()` on ASCII text keeps the length, turns a lower-case first letter into its own capital, keeps any other first character and lower-cases the rest |
| Lists.Take | app/llm_api.py:91 | `xs[:n]` is the prefix of length `min(n, len(xs))` |
| Lists.Filter | app/llm.py:189-193 | a comprehension `[x for x in xs if keep(x)]` keeps no more elements than it is given, and only ones that pass |
| Vectors.Normalize | app/steering.py:172 | the division by `norm + 1e-8` keeps the vector's dimension |
| Vectors.NormNonNegative | app/steering.py:172 | the Euclidean norm is non-negative and squares to the sum of squares |
| Vectors.NormZero | app/steering.py:172 | the norm is zero exactly for the zero vector |
| Vectors.NormalizeNorm | app/steering.py:269 | after the division by `norm + 1e-8` the norm is the old norm over `norm + 1e-8`: below 1, and zero exactly for the zero vector |
| Vectors.CosSimRange | app/semantic_dial_validator.py:66-67 | cosine similarity lies in [-1, 1] |
| Vectors.CosSimSymmetric | app/semantic_dial_validator.py:194 | cosine similarity does not depend on the order of its two vectors |
| Sums.SumOfPermutation | app/utils.py:151-158 | a sum over a rearrangement of the same elements is the same sum |
| Bands.CountAtMostMonotone | app/multi_dimensional_scale.py:171-180 | a larger value never falls in a lower band |
| Bands.CountAtMostBand | app/multi_dimensional_scale.py:171-180 | over ascending edges, an if/elif chain that stops at band `k` when `edges[k-1] <= v < edges[k]` returns the number of edges at or below `v` |
| Dicts.PutLookup | app/multi_dimensional_scale.py:239 | after `d[k] = v`, `k` maps to `v` and every other key keeps its value |
| Dicts.PutPut | app/multi_dimensional_scale.py:239 | assigning the same key twice leaves only the second value |

## Left out

- Floating point: all arithmetic is over exact reals. The `+ 1e-8` of every normalisation is kept exactly as `Vectors.Eps`. IEEE rounding, NaN and infinities are not modelled.
- Square root, embeddings, PCA fitting, FAISS search and the language, video and chat models are parameters, as described above. Their internals are not part of this model. `PCA(n_components=5)` raises when the embeddings have fewer than five dimensions; that error path is not modelled, since the derivation of semantic dimensions requires the fit to return five components of the embedding dimension.
- `TeaConversation.TeaPartyConversationEngine.RunConversationRound`: it computes the reply to every id of the order in the state the round starts in, then appends the accepted turns to the history once, instead of calling `generate_response` and appending one id at a time. A reply depends only on the topic and the character table, which a round does not change, so the returned turns, the history afterwards and the error are the same. The replies to the ids after a refused one are computed and discarded, where the source never asks for them; the model and video oracles are pure here, so this is not observable.
- File and network I/O are not modelled: CSV, JSON and pickle loading and saving (`learn_steering_vectors`' file reading, `_save_vectors`, `load_vectors`, `load_articles`, `load_config`, `_save_index`, `_load_index`, `initialize`), HTTP calls, `_wait_for_video` polling, and module-level prints. The model starts from the loaded rows and records.
- `learn_steering_vectors`: its format detection and file reading are I/O. The loaders, the mean-difference vector and the derivation it calls are modelled.
- `get_vector_info`, `get_stats`, `get_model_info`, `format_results_for_display`, `initialize_vector_store` and `create_validator` are not modelled; they only report or construct.
- `Text.Lower`: only ASCII letters are lowered. Python's `str.lower()` also lowers non-ASCII letters, and a few of them change length.
- `Text.Capitalize`: only ASCII letters change case. Python's `str.capitalize()` also changes non-ASCII letters, using title case for the first one.
- `chunk_text`: the regular-expression sentence split is not modelled. The model starts from the list of sentences, and sentence length is the length of the text.
- Concurrency: `async`/`await` and `asyncio.sleep` are modelled as their sequential effect.
- `generate_with_validation` is not modelled: it only drives the language model and then the modelled `_select_best_candidate`.
- `get_dimension_embeddings` is not modelled: it only encodes the descriptor texts, which the model does through the embedder.
- `SemanticScale`: `get_scale_description`, `_load_pairs` and `_analyze_semantic_patterns` are not modelled; they build display text and read a file.
- `TeaConversation`: `generate_opening_scene` and `example_conversation` are not modelled; they are fixed demo text.
- `TeaConversation`: the random choice in `_get_inspirational_quote` is a parameter (the chosen quote); the quote list is not modelled.
- `TeaConversation`: the timestamp of a turn is a parameter (the clock). The `recent_history` that `generate_response` computes and never uses is not modelled.
- Gemma `generate_response`, model loading and tokenising are not modelled. Only the prompt, context and answer-extraction text functions are.
- `Veo`: the fixed scene template of `generate_conversation_video` and the video calls of `generate_character_video`, `_build_video_prompt` and `generate_tea_party_scene` are not modelled. The conversation lines and the emotion prompt are.
- `Gemma.EmphasisEntries`: `f"{v:.1f}"` is a formatting parameter; rounding to one decimal is not modelled.
- `Gemma.BuildContext`: `max_docs` is a `nat`; the negative values Python would slice with are not modelled.
- `Gemma.ExtractResponseShape`: it does not claim the answer is free of `<end_of_turn>`. A single left-to-right `replace` can join the text around a removed marker into a new marker, as in `<end_<end_of_turn>of_turn>`.
- `Utils.DialScoreIsCosine`: the common keys are taken in the order of the user's dictionary, not `sorted()` order. `Utils.DialScoreOrderFree` proves the score is the same for every order of the keys.
- `Utils.ValidateDials`: dial values are reals. The `isinstance` test that rejects non-numbers has no counterpart.
- `Retrieval.RetrievalEngine.RebuildIndex` and `Retrieval.RetrievalEngine.Retrieve`: the clock fields `index_time_seconds` and `retrieval_time_ms` are not modelled, since they only measure wall time.
- `Retrieval.RetrievalEngine.Retrieve`: `topK` is a `nat`; the negative `top_k` values Python would slice with are not modelled.
- `Validator`: the descriptors of a dimension are a pair. The `ValueError` that unpacking `dimension_descriptors[dimension]` raises when the list does not have exactly two entries is not modelled.
- `Validator.SelectBestCandidate`: the summary (`overall_similarity`, `candidates_tested`) is kept apart from the per-dimension scores. In the source both go into one dictionary, so a dimension of either name would be overwritten by the summary.
- JSON values of other types, and `None` where a string is expected, are not modelled. A missing key is `None` (`Option`).
