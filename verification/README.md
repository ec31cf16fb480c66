# Creative pipeline: a Dafny model

This project models the core of a text-to-3D application. A user's short idea goes through these steps:

1. An Ollama `llama2` endpoint enhances it. If the endpoint answers with an error status, an algorithmic fallback enhances it instead.
2. A text-to-image service turns the enhanced prompt into an image.
3. An image-to-3D service turns the image into a model, and sometimes a video. When the primary call fails, one degraded retry is made.
4. Tags are extracted from the enhanced prompt.
5. The run is recorded in a SQLite `creations` table and in a per-process session cache.

An application callback, `executeInternal`, builds the pipeline when there is none and checks whether the request refers to an earlier creation. Its caller `execute` clears the pipeline first (`main.py:66`), so in the running application a pipeline is built for every request. It then runs the pipeline and words the reply.

The model has six modules:

- `Common`: `Option`, `Result`, bytes, and Python truthiness of an optional string.
- `Text`: the Python string operations the code relies on:
  - `str.lower`, modelled by `Lower`, which maps the ASCII letters only;
  - `str.replace`;
  - `str.split()`, over the full `str.isspace` character set;
  - `str.split(",")` and `",".join`;
  - the substring test `t in s`.
- `Ledger` (`app/core/memory/memory_manager.py`): the `MemoryManager` class.
  - The session cache is a `map` field.
  - The table is a `seq` of rows, oldest first, plus the AUTOINCREMENT counter and the latest timestamp.
  - SQLite `LIKE` is modelled with its `%` and `_` wildcards and ASCII case folding.
  - `ORDER BY creation_date DESC LIMIT ?` is modelled too, including that a negative limit means no limit.
- `Llm` (`app/core/llm/ollama_llama.py`): both enhancers as functions of the reply the POST produced, plus the fallback as a function of the three indices `random.choice` draws. The request's `prompt` field is kept as its template (the endpoint and the user's request); `Render` gives the text the f-string produces.
- `Pipeline` (`app/core/pipeline/generator.py`):
  - the three stage helpers and the tag extractor;
  - `PlanRun`, a pure description of one run of `process`: the calls it makes in order, and either the exception that ends it or the values it persists;
  - the `CreativePipeline` class, whose imperative `Process` method is proved to follow `PlanRun` and to update the memory manager exactly as described.
- `App` (`app/main.py`): the module globals as fields of an `App` class, with `config` and `executeInternal`.

Outside services are parameters, bundled in the `Env` datatype. These include:

- the container check;
- the Ollama reply;
- the random picks;
- every `stub.schema` / `stub.call` outcome;
- every file write;
- the `uuid4` tokens;
- whether the SQLite store works;
- the clock.

Nothing outside the model is called.

### Behaviour as the code has it

In several places the code does something other than its own comments and messages announce. For example, the comment "(only if we have an image)" (`generator.py:88`) and the message "Skipped 3D model generation due to missing image" (`generator.py:114`) suggest that a run without an image goes on to be saved; it does not. The model follows the code:

- **A failed image stage ends the run in the error record.** `video_path` is bound only inside the 3D branch (`generator.py:93`). With no image, line 119 reads an unbound local, and the outer handler returns the error shape. The error text is CPython 3.11's "cannot access local variable 'video_path' where it is not associated with a value". No `save_creation` call is made (`Pipeline.ImageFailureAborts`).
- **A truthy video ends the run in the error record.** The video branch passes seven arguments (`generator.py:120-128`). `save_creation` accepts at most six besides `self` (`memory_manager.py:77-83`). The resulting `TypeError` gives the error shape (`Pipeline.VideoAborts`). A video path is therefore never stored.
- **An enhancer failure propagates.** The enhancer falls back only on a non-200 status (`ollama_llama.py:31`, `:68`). The status test is `== 200`, not "2xx". Three failures reach the error shape (`Pipeline.EnhanceFailureAborts`):
  - an exception from `requests.post`;
  - a body that is not JSON;
  - a body without a `response` key.
- **A failed save does not abort the run.** `save_creation` catches its own errors and returns -1 (`memory_manager.py:117-119`). `process` then returns the success shape with creation id -1 and still writes the session cache.
- **A failed fallback write is fatal.** A failed write of the fallback model happens inside the `except` handler (`generator.py:105-106`), so it escapes to the outer handler. A fallback that raises or returns nothing is not fatal: it leaves `model_path` as None.
- **A missing `video_object` key counts as a failed primary call.** The primary 3D call reads `response['video_object']` after writing the model file (`generator.py:247`). When the key is missing, the `KeyError` sends the run to the fallback.
- **`stages_completed` and `errors` are discarded.** They are built and then replaced by the final dictionary (`generator.py:145-152`), so they are not modelled.
- **The two enhancer templates differ by one space.** The local template has a space after "200 words." (`ollama_llama.py:54`) that the container one lacks (`:17`).
- **The reference message never reaches the caller.** In `executeInternal` it is computed and then overwritten by the result message (`main.py:141-154`). The search is still performed, and it is the only way the call can raise when `memory_manager` is None.
- **The stopword test only ever removes "with".** Every other stopword is at most three characters long, so the length test already drops it (`generator.py:278-280`, `Pipeline.QualifiesByLength`).
- **Tag order is fixed in the model.** `list(set(tags))[:10]` depends on CPython's string hashing. The model keeps first occurrences. The lemmas about `Tags` are order-free; the run's contracts carry the model's first-occurrence order and, past ten words, its choice of which ten are kept.

## Model

| member | source | states |
|---|---|---|
| Text.Split | app/core/pipeline/generator.py:274 | every word of `split()` is non-empty, holds no whitespace character, and consists of characters of the input |
| Text.SplitAtSpace | app/core/pipeline/generator.py:274 | a whitespace character separates words: splitting around it is splitting each side on its own |
| Text.SplitJoinSpaces | app/core/pipeline/generator.py:274 | runs of spaces, such as those a replaced comma leaves, separate like one space: `" ".join(parts).split()` is the non-empty parts in order |
| Text.ContainsAt | app/main.py:117 | `t in s` holds exactly when `t` occurs at some index of `s` |
| Text.RunGivesWord | app/main.py:120 | a run of k > 0 non-space characters lies inside a word of `split()` that is at least k characters long |
| Text.SplitJoin | app/core/memory/memory_manager.py:102 | splitting a comma join on commas gives back the parts when no part holds a comma |
| Ledger.TagsColumn | app/core/memory/memory_manager.py:102 | the tags column is empty for no tags and for an empty tag list |
| Ledger.TagsColumnRoundTrip | app/core/memory/memory_manager.py:102 | non-empty, comma-free tags are recovered by splitting the stored column on commas |
| Ledger.LikePrefix | app/core/memory/memory_manager.py:137-141 | `LIKE 'term%'` with a wildcard-free term holds exactly when the lower-cased term is a prefix of the lower-cased text |
| Ledger.LikeIsSubstring | app/core/memory/memory_manager.py:137-141 | `LIKE '%term%'` with a wildcard-free term holds exactly when the lower-cased term is a substring of the lower-cased text: the search is a case-insensitive substring search |
| Ledger.MatchingExact | app/core/memory/memory_manager.py:137-148 | the query returns exactly the rows whose prompt, enhanced prompt or tags match and whose user matches when a truthy user id is given |
| Ledger.ByUserKeepsOrder | app/core/memory/memory_manager.py:172-177 | filtering the table by user keeps ids increasing and dates non-decreasing |
| Ledger.RecentBounded | app/core/memory/memory_manager.py:172-183 | a non-negative limit bounds the result; the result has exactly `limit` rows, or all the user's rows when the limit is negative or at least their number; every row returned is a table row of the requested user |
| Ledger.RecentNewestFirst | app/core/memory/memory_manager.py:179-183 | rows come newest first, and every row of the user that is left out is no newer than every row returned |
| Ledger.MemoryManager.constructor | app/core/memory/memory_manager.py:16-25 | a manager opens with an empty session cache over a table that satisfies the table invariant |
| Ledger.MemoryManager.SaveToShortTerm | app/core/memory/memory_manager.py:54-63 | the key now maps to the value, and every other key reads as before |
| Ledger.MemoryManager.GetFromShortTerm | app/core/memory/memory_manager.py:65-75 | a missing key reads as None, a present key as its stored value |
| Ledger.MemoryManager.SaveCreation | app/core/memory/memory_manager.py:77-119 | when the store works: appends one row stamped now, with the next AUTOINCREMENT id (larger than every id before), tags joined by commas and no video path, and returns that id; the counter then moves on by one and the clock is set to now; when it fails: returns -1 and changes nothing; the table invariant is kept |
| Ledger.MemoryManager.SearchCreations | app/core/memory/memory_manager.py:121-154 | returns the matching rows in table order, containing exactly the rows that satisfy the WHERE clause; [] when the store fails |
| Ledger.MemoryManager.GetRecentCreations | app/core/memory/memory_manager.py:156-189 | returns `Recent(rows, limit, user)`, the newest `limit` rows of the user (default 5); [] when the store fails |
| Ledger.MemoryManager.GetAllCreations | app/core/memory/memory_manager.py:191-224 | the same query with a default limit of 20 |
| Llm.PayloadFor | app/core/llm/ollama_llama.py:7-25 | the request goes to the endpoint's URL with model `llama2`, no streaming, and a prompt rendered from that endpoint's template |
| Llm.PayloadEmbedsPrompt | app/core/llm/ollama_llama.py:12-23 | the rendered prompt starts with the instruction text and holds the user's prompt verbatim between it and the closing line |
| Llm.PayloadsAgree | app/core/llm/ollama_llama.py:44-62 | the local request differs from the container one in its URL and one extra space; model, streaming and the embedded prompt agree |
| Llm.CreateEnhancedPromptFallback | app/core/llm/ollama_llama.py:79-100 | the result starts with the basic prompt, is longer, and what follows is one of the 64 suffixes ", style, lighting, detail, masterfully crafted, 8k resolution" |
| Llm.EnhancePrompt | app/core/llm/ollama_llama.py:6-40 | sends the container payload; a failed POST raises; status 200 returns the `response` text or raises on a bad body; any other status returns the fallback; it raises exactly in those three cases |
| Llm.EnhancePromptLocal | app/core/llm/ollama_llama.py:42-77 | the same branching with the localhost payload |
| Pipeline.Candidates | app/core/pipeline/generator.py:275-281 | the loop keeps exactly the words longer than three characters that are not stopwords |
| Pipeline.QualifiesByLength | app/core/pipeline/generator.py:278-280 | "with" is the only stopword longer than three characters, so a word qualifies exactly when it is longer than three characters and is not "with" |
| Pipeline.Dedupe | app/core/pipeline/generator.py:284 | the result has no duplicates and the same elements as its input |
| Pipeline.TagsSpec | app/core/pipeline/generator.py:262-284 | tags are distinct, at most ten, each a qualifying word of the lower-cased, comma-free prompt; their number is the number of distinct qualifying words capped at ten; with at most ten such words, the tags are exactly those words |
| Pipeline.TagsAreClean | app/core/pipeline/generator.py:274-284 | every tag is non-empty and contains no whitespace, no comma and no upper-case ASCII letter |
| Pipeline.CandidatesAppend | app/core/pipeline/generator.py:279-281 | the loop over a concatenation collects the candidates of each part in turn |
| Pipeline.CandidatesAll | app/core/pipeline/generator.py:279-281 | words that all qualify are collected unchanged |
| Pipeline.CandidatesSkip | app/core/pipeline/generator.py:279-281 | a leading word that does not qualify leaves nothing behind |
| Pipeline.DedupeDistinct | app/core/pipeline/generator.py:284 | a list without repeats is left as it is |
| Pipeline.DragonWords | app/core/pipeline/generator.py:274 | "A Majestic Dragon, Glowing Scales, Golden Hour" lower-cases, loses its commas, and splits into its seven words |
| Pipeline.DragonTags | app/core/pipeline/generator.py:262-284 | the tags of that prompt are, as a set, exactly majestic, dragon, glowing, scales, golden and hour |
| Pipeline.ExtractTags | app/core/pipeline/generator.py:262-284 | the loop computes `Tags(prompt)` |
| Pipeline.GenerateImage | app/core/pipeline/generator.py:165-214 | an image exists exactly when the schema call and the service call succeed, the `result` field is truthy and the write succeeds; it is those bytes, saved under `<output_dir>/images/<token>.png` |
| Pipeline.GenerateModel | app/core/pipeline/generator.py:216-260 | a model exists exactly when the call returned a truthy `generated_object`, the `video_object` key is present, the model write succeeded and, for a truthy video, the video write succeeded; the model holds the `generated_object` bytes; a missing key means failure; a video path exists exactly when the video is truthy, and then the video write succeeded and the path is `<output_dir>/videos/<token>.mp4` |
| Pipeline.GenerateModelFallback | app/core/pipeline/generator.py:286-310 | the fallback never raises: it returns the `generated_object` value of a returned, truthy response, and yields truthy data exactly when that field is truthy |
| Pipeline.EnhanceFailureAborts | app/core/pipeline/generator.py:72-75 | an enhancer exception ends the run after the one enhancer call, which happens only for a failed POST or a bad 200 body |
| Pipeline.ImageFailureAborts | app/core/pipeline/generator.py:78-119 | with no image the run ends with `video_path` unbound, and makes no 3D call, no fallback call and no save |
| Pipeline.PersistFacts | app/core/pipeline/generator.py:116-137 | a run that reaches the save had an enhanced prompt and an image; its image path is truthy; the primary 3D call gave no video; it stores the tags of the enhanced prompt through the six-argument call |
| Pipeline.FallbackOnce | app/core/pipeline/generator.py:97-110 | after a failed primary 3D call the fallback is called exactly once; the run aborts only when the fallback gave data and writing it failed; a persisted run has a model path exactly when the fallback gave data |
| Pipeline.VideoAborts | app/core/pipeline/generator.py:119-128 | a primary 3D call that yields a video leads to the seven-argument save, which raises; no fallback call is made |
| Pipeline.CreativePipeline.constructor | app/core/pipeline/generator.py:20-43 | the pipeline holds the memory manager, both app ids and the output directory (default `static/outputs`) |
| Pipeline.CreativePipeline.Process | app/core/pipeline/generator.py:51-163 | the calls made are those of `PlanRun`; the record returned is `RunResult` of that plan and the memory manager's new state is `AfterRun` of it: an aborted plan returns the error shape with stage `pipeline_process` and leaves the memory manager untouched; a persisted plan returns the success shape with the id the table gave (or -1), appends that row, advances the counter and clock, and writes the four session keys; the table invariant is kept |
| Pipeline.CreativePipeline.RunStages | app/core/pipeline/generator.py:77-143 | after a successful enhancement, the calls made are those of `RunAfter`; the record returned and the memory manager's new state are `RunResult` and `AfterRun` of that plan |
| Pipeline.CreativePipeline.ModelStage | app/core/pipeline/generator.py:89-110 | the 3D stage with an image does what `ModelPlan` says: the primary call, and when it raises, one fallback call and the write of the fallback's data, whose failure escapes |
| Pipeline.CreativePipeline.SaveRun | app/core/pipeline/generator.py:130-143 | one `save_creation` call, then the four session-cache writes: the id is `SavedId` and the new state is `Saved` (the row appended and the counter and clock advanced when the store works, and the four keys written) |
| Pipeline.AfterRunValid | app/core/pipeline/generator.py:116-143 | a run keeps the table invariant and leaves the clock no later than its own time, so the next run may start |
| Pipeline.RunIdsIncrease | app/core/memory/memory_manager.py:98-116 | two persisted runs in a row against a working store return increasing ids, each the id of the row that run appended |
| Pipeline.PrimaryNoFallback | app/core/pipeline/generator.py:92-96 | a successful primary 3D call makes exactly one 3D call and no fallback call; without a video the run reaches the save with the primary model's path |
| App.RefersToEarlierAt | app/main.py:117 | a request refers to an earlier creation exactly when "like" occurs in the lower-cased prompt together with "last", "previous" or "before", as substrings anywhere |
| App.LongWords | app/main.py:120 | keeps exactly the words longer than three characters |
| App.SearchTermsSpec | app/main.py:120 | the search terms are exactly the whitespace-separated words of the prompt, case kept, that are longer than three characters |
| App.PreviousExact | app/main.py:121-125 | the collected results contain exactly the table rows that some search term matches |
| App.FindPrevious | app/main.py:121-125 | the loop collects each term's search results in turn |
| App.ReferringHasTerm | app/main.py:117-122 | a prompt that refers to an earlier creation always has a search term, so the loop over the terms makes at least one `search_creations` call |
| App.ReferenceMessage | app/main.py:127-133 | when something was found, the message starts "I found" and quotes the first found creation's prompt verbatim at a fixed place; otherwise it is the fixed "couldn't find" message, which does not start "I found" |
| App.SuccessText | app/main.py:144-154 | the success reply opens with the fixed heading, quotes the user's prompt verbatim right after it, and contains the line reporting the creation id |
| App.ResultMessage | app/main.py:141-154 | the reply starts with "Error: " exactly for the error shape, and then carries the pipeline's error text |
| App.App.constructor | app/main.py:18 | no configurations yet, and no pipeline, memory manager or client |
| App.App.Config | app/main.py:23-33 | every supplied user's configuration is stored; other users' entries are kept |
| App.App.ExecuteInternal | app/main.py:93-158 | builds the pipeline (app ids 0 and 1, directory `outputs`) only when there is none but both a memory manager and a client exist. Too few app ids, or a failed directory creation, raise. With a pipeline, the run uses the memory the pipeline was built with; the reply is the result message of `RunResult` of the run, and that memory's new state is `AfterRun` of it, valid again. With a pipeline, the call raises exactly when the prompt refers to an earlier creation and there is no memory manager; it then raises the `AttributeError` of `search_creations` on None and nothing changes. Without a pipeline, the reply is the not-initialized message |
| App.Respond | app/main.py:114-154 | raises exactly when the prompt refers to an earlier creation and there is no memory manager, with the `AttributeError` of `search_creations` on None, and then changes nothing; otherwise returns `RunResult` of one `process` call and its result message, and leaves the pipeline's memory in the valid state `AfterRun` |

## Left out

- `execute` (`main.py:39-91`) is not modelled. It resets the globals and sets up the memory manager and client; `App.App.ExecuteInternal` covers every global state it can leave behind.
- `is_running_in_docker` is left out because it reads the file system. It becomes the `inDocker` field of `Env`.
- HTTP, the remote service calls, file writes, `uuid4`, `random.choice`, `datetime.now` and SQLite are parameters, not calls. Each outcome (returned, raised, failed) is one field of `Env`.
- The text-to-image request's fixed fields (negative prompt, size, guidance, steps, `generator.py:183-190`) are not recorded. A step records the app id, the prompt and the user only.
- The base64 encoding of the image is not modelled. A 3D step records the raw image bytes.
- Logging and `print` are left out.
- A failure of `_initialize_db` is left out: the manager opens over an existing table.
- `CreativePipeline.__init__`'s `os.makedirs` calls are not performed by `Pipeline.CreativePipeline.constructor`. Their outcome is the `dirsMade` parameter of `App.App.ExecuteInternal`.
- The `stub` and `llm_client` objects are not stored in the pipeline: every call they would make is answered from `Env`.
- Pipeline.Tags: the order of `list(set(tags))` follows CPython string hashing. The model keeps first occurrences. The lemmas about `Tags` are order-free, but the run's contracts carry this order and, past ten qualifying words, this choice of which ten are kept.
- Ledger.MemoryManager.SearchCreations: a query without ORDER BY is returned in table (rowid) order. SQLite does not promise that order.
- Ledger.Recent: rows with equal timestamps come newest insertion first. SQLite leaves that tie order unspecified.
- Ledger.MemoryManager.SaveCreation: creation dates are values of a clock that never runs backwards, not ISO-8601 text. Text order and clock order then agree.
- Ledger.MemoryManager.SaveCreation: a failing store is one boolean per call. A partial failure (for example, an insert whose commit fails) is not distinguished.
- Text.Lower: only ASCII letters are mapped. Python's `lower()` also maps other letters.
- The session cache holds strings or None only, the only values the pipeline writes.
- `App.App.Config` ignores its `state` argument, as the source does.
- `App.App.ExecuteInternal`: the exception messages of an `IndexError` and an `AttributeError` are CPython's. A failed `os.makedirs` carries its own message.
