# prpl-llm-utils core, modelled in Dafny

This project models the sequential core of `prpl_llm_utils`, a small utility
layer around large-language-model APIs. The model covers four parts:

- **Fenced-code extraction.** `parse_python_code_from_text` (`code.py`) and
  its twin `parse_python_code_from_llm_response` (`utils.py`) are modelled as
  pure functions over `string`. They are checked against an independent
  reference relation, `Code.IsExtraction`: the body after the first
  "```python", up to the first closing "```" or to the end of the text.
- **The syntax reprompt decision.** This is `SyntaxRepromptCheck.get_reprompt`.
  The parser (`ast.parse` together with the traceback formatting) is a
  parameter. So is `create_reprompt_from_error_message`.
- **The response cache.** The cache directory is an immutable store,
  `map<string, Entry>`. A key is present when its folder exists, and an
  `Entry` holds the optional prompt, images, completion and metadata files.
  Two copies of the cache logic run over this store:
  `FilePretrainedLargeModelCache` (`Cache`) and the inlined sequence in
  `PretrainedLargeModel.query` (`Models`). Both share the folder writes and
  reads in `Files`. `CannedResponseModel` is the concrete backend.
  The two copies name folders by different query ids. The cache class uses
  `get_readable_id` and `query` uses `get_id`. So the cache class does not
  see `query`'s entries unless the two ids coincide on a query
  (`Models.QueryEntryInvisibleToCache`).
- **The integer reduction of `consistent_hash`.** SHA-256, `repr` and UTF-8
  encoding are parameters.

Modules: `Wrappers` (Option, Result), `Structs` (Query, Response, exceptions),
`Text` (substring search), `Code`, `Utils`, `Files`, `Cache`, `Models`.

The code does not trim: `"```python\nX\n```"` yields `"\nX\n"` (see `Code.NoTrimming`).

## Model

| member | source | states |
|---|---|---|
| `Text.IndexOf` | src/prpl_llm_utils/code.py:75-76 | `None` exactly when the pattern does not occur (Python `in`); otherwise the index of its first occurrence (`str.index`) |
| `Code.CutAtFence` | src/prpl_llm_utils/code.py:78-82 | the slice is a prefix of the remainder, has no closing fence starting inside it, and ends either at the first fence or at the end of the remainder |
| `Code.ParseCodeFromText` | src/prpl_llm_utils/code.py:71-84 | `None` iff "```python" does not occur in the text; otherwise the result is the reference extraction after the first tag |
| `Code.ExtractionUnique` | src/prpl_llm_utils/code.py:76-82 | the reference extraction is functional, so the code returned is the only body the first tag and the first fence allow |
| `Code.BodyHasNoFence` | src/prpl_llm_utils/code.py:78-82 | an extracted body never contains "```" |
| `Code.ExtractionShape` | src/prpl_llm_utils/code.py:76-82 | the code holds no "```", is at most the text length minus 9, is a substring of the text, and starts immediately after the first tag (the text before it is discarded) |
| `Code.NoClosingFenceTakesRest` | src/prpl_llm_utils/code.py:80-81 | with no closing fence after the first tag, the result is the entire remainder of the text |
| `Code.NoTrimming` | src/prpl_llm_utils/code.py:77-83 | `"```python\nX\n```"` gives `"\nX\n"`, `"```python\nX"` gives `"\nX"`, and text without the tag gives `None` |
| `Code.GetReprompt` | src/prpl_llm_utils/code.py:58-68 | no reprompt iff code is extracted and the parser accepts it; with no code, the reprompt carries "No python code was found in the response."; on a syntax error, it carries the error report; any other exception from the parser propagates |
| `Utils.ParseCodeFromResponse` | src/prpl_llm_utils/utils.py:18-31 | the response itself when the tag is absent; otherwise the reference extraction |
| `Utils.ResponseParserAgrees` | src/prpl_llm_utils/utils.py:21-31 | where the tag occurs, the response parser returns what the text parser returns; elsewhere it returns its input where the text parser gives `None` |
| `Utils.ResponseParserIdempotent` | src/prpl_llm_utils/utils.py:22-31 | applying the response parser twice equals applying it once |
| `Utils.ReduceAsWritten` | src/prpl_llm_utils/utils.py:13-15 | identity below 2^63 and the digest minus 64 from 2^63 up; the result is a signed 64-bit value iff the digest is below 2^63 + 64 |
| `Utils.ReduceAsWrittenEscapes` | src/prpl_llm_utils/utils.py:15 | the digests 2^63 + 64 and 2^255 reduce to values outside the signed 64-bit range |
| `Utils.Reduce` | src/prpl_llm_utils/utils.py:13-15 | corrected reduction: always signed 64-bit, congruent to the digest modulo 2^64, and equal to the code's result below 2^63 |
| `Utils.Signed64Unique` | src/prpl_llm_utils/utils.py:13-14 | only one signed 64-bit value is congruent to a digest modulo 2^64, and it is `Reduce`'s result |
| `Utils.ConsistentHashAsWritten` | src/prpl_llm_utils/utils.py:7-15 | the hash as written lies in the signed 64-bit range iff the SHA-256 digest of the UTF-8 `repr` is below 2^63 + 64 |
| `Utils.ConsistentHash` | src/prpl_llm_utils/utils.py:7-15 | the corrected hash is always signed 64-bit and congruent to the digest modulo 2^64 |
| `Utils.HashDeterministic` | src/prpl_llm_utils/utils.py:8-12 | objects whose `repr` encodes to the same bytes hash equally, in both versions |
| `Files.FolderName` | src/prpl_llm_utils/cache.py:36 | the folder name splits back into the model id, a "_" at the model id's length, and the query id, so the query id is recoverable from the name |
| `Files.FolderNameInjective` | src/prpl_llm_utils/cache.py:34-37 | for one model id, distinct query ids give distinct folders |
| `Files.MakeFolder` | src/prpl_llm_utils/cache.py:38 | `mkdir(exist_ok=True)`: the folder exists afterwards, an existing folder is untouched, other folders are unchanged, and no hit is created or lost |
| `Files.SaveImages` | src/prpl_llm_utils/cache.py:66-70 | image i of the list is at index i; a higher index left over from an earlier save survives |
| `Files.WriteResponse` | src/prpl_llm_utils/cache.py:60-78 | prompt, completion and metadata hold the new values; images are written in order only when the query has images |
| `Files.UniversalNewlines` | src/prpl_llm_utils/cache.py:47-48 | reading `completion.txt` in text mode leaves no "\r", never lengthens the text, and gives back a text without "\r" unchanged |
| `Files.UniversalNewlinesIsReplace` | src/prpl_llm_utils/cache.py:47-48 | the translation equals replacing every "\r\n" by "\n" and then every remaining "\r" by "\n", with `Text.ReplaceAll` as the reference `str.replace` |
| `Files.NewlineTranslation` | src/prpl_llm_utils/cache.py:47-48 | `"a\r\nb"` and `"a\rb"` both read back as `"a\nb"`, and a trailing `"\r"` reads back as `"\n"` |
| `Files.ReadResponse` | src/prpl_llm_utils/cache.py:45-54 | the response is rebuilt from the completion, read with newline translation, and the metadata; a missing file raises `FileNotFoundError`, with the completion checked first |
| `Files.WriteThenRead` | src/prpl_llm_utils/cache.py:45-78 | reading a folder after writing a response gives it back with its newlines translated, and unchanged when its text has no "\r" |
| `Files.WriteIdempotent` | src/prpl_llm_utils/cache.py:61-78 | every write overwrites, so writing twice equals writing once |
| `Cache.CacheFolder` | src/prpl_llm_utils/cache.py:34-39 | the key splits back into the model id, "_" and `query.get_readable_id()`, so for one model the readable id is recoverable from the folder |
| `Cache.TryLoadResponse` | src/prpl_llm_utils/cache.py:41-56 | raises `ResponseNotFound` iff the folder has no prompt file; otherwise reads the stored response; always leaves the folder created |
| `Cache.Save` | src/prpl_llm_utils/cache.py:58-79 | after a save, the folder is a hit holding the written response, and every other folder is unchanged |
| `Cache.SaveThenLoad` | src/prpl_llm_utils/cache.py:41-79 | loading after a save returns the saved response with its newlines translated (exactly the saved response when its text has no "\r") and leaves the store unchanged |
| `Cache.SaveIdempotent` | src/prpl_llm_utils/cache.py:58-79 | saving the same response twice leaves the same store as saving once |
| `Cache.MissIsStable` | src/prpl_llm_utils/cache.py:38-44 | a miss creates the empty folder but no prompt file, so a repeated lookup misses again and changes nothing |
| `Cache.ImagesInOrder` | src/prpl_llm_utils/cache.py:65-70 | images are saved as `imgs/0.jpg … imgs/(n-1).jpg` in list order, and the image folder is touched only when the query has images |
| `Models.CacheDir` | src/prpl_llm_utils/models.py:95-103 | the key splits back into `get_id()`, "_" and `query.get_id()`, so for one model the query id is recoverable from the folder |
| `Models.QueryModel` | src/prpl_llm_utils/models.py:42-93 | a hit runs nothing, writes nothing and returns the stored response; a cache-only miss raises `ValueError("No cached response found for prompt.")`, runs nothing and writes no file; otherwise `_run_query` is called exactly once; its exception propagates and leaves a miss; its answer is written (prompt, images, completion, metadata) and returned as read back, with newlines translated; other folders are unchanged |
| `Models.QueryMissIsCacheSave` | src/prpl_llm_utils/models.py:56-93 | the two copies of the cache logic agree when the cache class is keyed by `get_id` in place of `get_readable_id`: on a miss, `query` leaves the store that `FilePretrainedLargeModelCache.save` would, and returns what that cache's lookup then loads |
| `Models.QueryEntryInvisibleToCache` | src/prpl_llm_utils/models.py:94-101 | with the ids the code uses, when `get_readable_id` and `get_id` differ on a query whose cache-class folder is a miss, that folder stays a miss whatever `query` does, so the cache class raises `ResponseNotFound` |
| `Models.RepeatIsHit` | src/prpl_llm_utils/models.py:56-93 | after a successful call, the same query (or any query with the same id) is a hit: no `_run_query`, the same answer, the same store |
| `Models.DistinctIdsSeparateFolders` | src/prpl_llm_utils/models.py:98-102 | queries with distinct ids, such as two that differ only in hyperparameters, use separate folders, and querying one leaves the other's folder untouched |
| `Models.StepShape` | src/prpl_llm_utils/models.py:56-81 | a call never removes a prompt file; when it calls `_run_query`, that folder was a miss before and is a hit after exactly when the answer came back |
| `Models.AtMostOneRunPerKey` | src/prpl_llm_utils/models.py:56-81 | over any session, `_run_query` is never handed a query whose folder already holds an answer: every call's folder was a miss at the start, no call follows an answered call on the same folder, and answered folders are hits at the end |
| `Models.Canned` | src/prpl_llm_utils/models.py:136-156 | `get_id()` is "canned"; `_run_query` returns the registered response and raises `KeyError` for an unregistered query |
| `Models.CannedMiss` | src/prpl_llm_utils/models.py:152-156 | on a miss, a registered query is answered from the table (as read back from the cache) and cached; an unregistered one raises `KeyError` and leaves the folder a miss |
| `Models.CannedFreshAnswers` | tests/test_models.py:21-25 | from an empty cache, "Hello!" gives "Hi!", the seeded query gives "Hello!" from its own folder, and "Hi!" raises `KeyError` |
| `Models.CacheOnlyAnswers` | tests/test_models.py:26-30 | a cache-only model answers a cached prompt without a call and raises `ValueError("No cached response found for prompt.")` for an uncached one |
| `Models.CannedScenario` | tests/test_models.py:12-30 | the canned-model session: "Hello!" gives "Hi!"; the seeded query gives "Hello!"; "Hi!" raises `KeyError`; a cache-only model over the same store answers "Hi!" without a call and raises `ValueError` for "What's up?" |

## Findings

| source | as written | input that shows it | evidently intended | confidence | as-written member | corrected member |
|---|---|---|---|---|---|---|
| src/prpl_llm_utils/utils.py:15 | `hash_int if hash_int < 2**63 else hash_int - 2**6` subtracts 64, although the comment on lines 13-14 promises a signed 64-bit result | a digest `hash_int = 2**63 + 64` gives `2**63`, one above the signed 64-bit maximum; any digest from 2^63 + 64 up (almost every SHA-256 output, e.g. 2^255) leaves the range | a value in [-2^63, 2^63): the two's-complement reading of the digest's low 64 bits, which equals the code's result below 2^63 | high that the promised range fails (proved for the integer step); not executed | `Utils.ReduceAsWritten`, `Utils.ReduceAsWrittenEscapes` | `Utils.Reduce`, `Utils.Signed64Unique` |

Subtracting `2**64` instead of `2**6` would not be enough either: a 256-bit
digest minus 2^64 is still far above 2^63. So the corrected reduction first
takes the digest modulo 2^64.

## Left out

- The reprompt loop, `RepromptCheck` and `create_reprompt_from_error_message` live in `reprompting.py`. That file is not part of this model, so the reprompt builder is a parameter of `Code.GetReprompt`.
- `Query` and `Response` are defined in `structs.py`, which is not part of this model. They are represented by the fields the core reads. `Query.get_id` and `Query.get_readable_id` are parameters of type `Query -> string`.
- `SynthesizedPythonFunction` (`code.py` lines 17-52) writes a temporary file and executes arbitrary code through `importlib`.
- `OpenAIModel` is a network call through the OpenAI SDK, plus an environment-variable assertion.
- `ast.parse` and `traceback.format_exception` are one parameter, `string -> ParseOutcome`. It returns success, the formatted syntax-error report, or another exception.
- SHA-256, `repr`, UTF-8 encoding and the `hexdigest` to `int(…, 16)` conversion are parameters. A digest is any natural number below 2^256.
- JSON serialisation, UTF-8 file encoding and PIL image saving are treated as identity round trips. Newline translation on reading is modelled; on writing, a POSIX line separator is assumed, so writing leaves `"\n"` as is.
- Folder names are opaque keys of the store. They are not resolved as paths, so a query id containing `/` or `..` is not modelled.
- File-system failures are not modelled: permissions, partial writes, a crash between writes.
- A completion text of `None` (possible from the OpenAI backend) is not modelled. `Response.text` is always a string.
- `logging` calls are left out.
- The constructors and their `mkdir` of the cache root are left out; the store's root is taken to exist.
- The abstract base class `PretrainedLargeModelCache` is not modelled separately. Its only implementation is.
- Python's `str.index` raising `ValueError` is not modelled, because the code always tests `in` first.
- Floating-point hyperparameter values are not modelled. Only integer, text and boolean values are.
