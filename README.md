# Query resolution of the Bhagavad Gita chat service, in Dafny

This project models how the service turns one `POST /get_response` request into an answer.

- It validates the JSON body.
- It tries a casual-intent fast path. Greetings are fuzzy-matched against a fixed phrase table. The process remembers the normalised queries it has already answered, and a repeated query gets a reply from a dedicated "repeated casual queries" bucket.
- Otherwise it picks the corpus entry at the first maximum of the semantic similarity scores. The lexical ranking is computed and then discarded.
- It asks a remote generation backend to elaborate on that entry. The backend credential comes from a rotating index into a pool of five keys. A rate-limit error rotates the key and retries. Any other error is raised. A successful stream is folded into one string.

Modules, one per concern:

- `Wrappers` holds `Option` and `Result`.
- `Text` holds Python's `lower()`, `strip()` and substring `in`, written over `seq<char>`.
- `Casual` holds the reply table, the sentinel and query normalisation. Its class `CasualMatcher` holds the process-wide `user_history`.
- `Retrieval` holds the first-occurrence arg-max, entry selection and `.get(..., "N/A")`.
- `Elaboration` holds key rotation, the prompt, stream accumulation and the retry specification. Its class `Elaborator` holds `api_keys` and `current_key_index`.
- `App` holds request validation, the response datatypes and the `get_response` handler.

Foreign code enters as parameters:

- The fuzzy matcher is a function `string -> MatchResult`. All that is assumed is that it returns a key of the table and a score in 0..100.
- The lexical and semantic similarities are one integer score per corpus entry.
- The backend is a finite sequence of `Attempt`s, one per call it would answer. `Rejected(message)` means the call raised. `Streamed(fragments, interruption)` means the call returned a stream of optional fragments, and reading that stream may raise after those fragments.
- `random.choice` is "some member of the bucket" (`:|`).

Points where the code's behaviour is easy to misread:

- The handler rejects the empty string as well as missing and non-string input (`not user_query` at app.py:124).
- `rotate_api_key` returns nothing. It only advances the index.
- Only errors raised by the `create` call are inside the `try` (Eleboration.py:63-76). An error raised while the stream is read escapes without rotation, even if it reports a rate limit (`InterruptedStreamIsRaised`).
- A successful elaboration can be empty: it is empty exactly when no fragment carries text (`ConcatEmptyIff`).
- Repetition is tracked per normalised query, not per matched phrase key. "hi" followed by "hello" is two first hits.

## Model

| member | source | states |
|---|---|---|
| `Text.LowerChar` | app.py:92 | an ASCII upper-case letter is shifted to lower case, every other character is kept, and the result is never an upper-case letter |
| `Text.ToLower` | app.py:92 | `lower()` keeps the length and lower-cases each character in place |
| `Text.TrimStart` | app.py:92 | the result is a suffix of the input, everything removed is whitespace, and the result does not start with whitespace |
| `Text.TrimEnd` | app.py:92 | the result is a prefix of the input, everything removed is whitespace, and the result does not end with whitespace |
| `Text.StripBounds` | app.py:92 | what `strip()` leaves neither starts nor ends with whitespace |
| `Text.StripSurroundingSpace` | app.py:92 | surrounding whitespace of any length does not change the result of `strip()` |
| `Text.StripIdempotent` | app.py:92 | stripping twice is stripping once |
| `Text.ToLowerStrip` | app.py:92 | lower-casing and stripping commute |
| `Text.IsSpace` | app.py:92 | the definition of the characters `strip()` removes, Python's `str.isspace()` set; `TrimStart` and `TrimEnd` state what it removes |
| `Text.Strip` | app.py:92 | the definition of `strip()` as `TrimEnd(TrimStart(s))`; `StripBounds`, `StripSurroundingSpace` and `StripIdempotent` state its properties |
| `Text.Contains` | Eleboration.py:72 | the definition of Python's substring `in`; `ContainsMiddle` and `ContainsOnlyAround` state its properties |
| `Text.ContainsOnlyAround` | Eleboration.py:72 | a string is `in` another only where it occurs: the other splits as text before, the string, and text after (the converse of `ContainsMiddle`) |
| `Text.ContainsMiddle` | Eleboration.py:72 | a string is `in` any string built around it |
| `Casual.Normalize` | app.py:92 | the definition of `user_query.lower().strip()`; `NormalizeIdempotent`, `NormalizeIgnoresSurroundingSpace` and `NormalizeIgnoresCase` state its properties |
| `Casual.NormalizeIdempotent` | app.py:92 | a normalised query normalises to itself, so the history holds fixed points |
| `Casual.NormalizeIgnoresSurroundingSpace` | app.py:92-95 | queries that differ only in surrounding whitespace are matched and remembered alike |
| `Casual.NormalizeIgnoresCase` | app.py:92-95 | queries that differ only in ASCII letter case are matched and remembered alike |
| `Casual.FriendlyResponsesWellFormed` | app.py:32-85 | the table has the repeated bucket, no bucket is empty, and the sentinel (app.py:113) is no bucket's reply, so comparing with it tells a hit from a miss |
| `Casual.FriendlyResponsesDistinct` | app.py:32-85 | the repeated bucket shares no reply with any other bucket |
| `Casual.RememberNewQuery` | app.py:100-104 | appending a normalised query that is not yet in the history keeps the history duplicate-free and normalised |
| `Casual.CasualMatcher.constructor` | app.py:88 | the process starts with the source's table and an empty history |
| `Casual.CasualMatcher.GetFriendlyResponse` | app.py:90-113 | A score of at most 70 gives the sentinel and leaves the history alone. Above 70, a known query gets a reply from the repeated bucket with the history unchanged, and a new query gets a reply from the matched key's bucket and is appended once. The history only grows, never holds duplicates and holds only normalised queries. The reply differs from the sentinel exactly when the score is above 70 |
| `Casual.RepeatedQuery` | app.py:100-107 | the second of two identical casual queries is answered from the repeated bucket and never from the phrase's own bucket |
| `Retrieval.ArgMax` | app.py:140 | the index holds the largest score and every earlier score is strictly smaller (first occurrence) |
| `Retrieval.FirstMaxUnique` | app.py:140 | only one index is the first maximum, so the choice is determined by the scores |
| `Retrieval.Field` | app.py:146-148 | `.get(name, "N/A")`: the entry's value when present, `"N/A"` otherwise |
| `Retrieval.SelectEntry` | app.py:132-143 | the selected entry sits at the first maximum of the semantic scores |
| `Retrieval.SelectionIgnoresLexical` | app.py:132-143 | the lexical scores never change the selected entry |
| `Retrieval.SingleEntryCorpus` | app.py:139-143 | a one-entry corpus always answers with that entry |
| `Elaboration.Rotate` | Eleboration.py:25-27 | rotation stays within the five slots, advances by one, and wraps from the last slot to 0 |
| `Elaboration.RotateTimes` | Eleboration.py:27 | any number of rotations from a valid index stays a valid index |
| `Elaboration.RotateTimesAdvances` | Eleboration.py:27 | `k` rotations advance the index by `k` modulo 5 |
| `Elaboration.RotateRoundTrip` | Eleboration.py:10-27 | five rotations bring the index back to where it started |
| `Elaboration.Prompt` | Eleboration.py:36-58 | the definition of the f-string template, with the prose abbreviated; `PromptEmbedsInputs` states its property |
| `Elaboration.PromptEmbedsInputs` | Eleboration.py:36-58 | the prompt contains the user query, the verse, the translation and the explanation verbatim |
| `Elaboration.NonEmptyFragments` | Eleboration.py:80-81 | the texts kept are no more than the fragments and none is empty |
| `Elaboration.Concat` | Eleboration.py:78-84 | the definition of the accumulated text as a left fold of the stream; `ConcatAppend`, `ConcatIsNonEmptyFragmentsJoined`, `ConcatEmptyIff` and `AccumulateStream` state its properties |
| `Elaboration.ConcatAppend` | Eleboration.py:79-82 | folding a stream in two parts is folding each part and joining the results |
| `Elaboration.ConcatIsNonEmptyFragmentsJoined` | Eleboration.py:78-84 | the accumulated text is the fragments that carry text, joined in arrival order; absent and empty fragments add nothing |
| `Elaboration.ConcatEmptyIff` | Eleboration.py:78-84 | the accumulated text is empty exactly when every fragment is absent or empty |
| `Elaboration.AccumulateStream` | Eleboration.py:78-84 | the loop's result is the left fold of the stream |
| `Elaboration.IsRateLimit` | Eleboration.py:72 | the definition of `"rate limit" in str(e).lower()`; `RateLimitAnyCase` states its property |
| `Elaboration.RetriesOn` | Eleboration.py:63-74 | the definition of an attempt that leads to a rotation and a retry: `create` raised an error that reports a rate limit; `Rotations` and `InterruptedStreamIsRaised` state its properties |
| `Elaboration.RateLimitAnyCase` | Eleboration.py:72 | a message containing "rate limit" in any letter case, anywhere, is detected as a rate limit |
| `Elaboration.Rotations` | Eleboration.py:71-76 | the rotation count is the number of leading rate-limit failures: every attempt before it is one, and the attempt at it is not |
| `Elaboration.AttemptsMade` | Eleboration.py:61-76 | the definition of the number of `create` calls: one per rotation plus the settling call, if any; `Elaborator.GenerateElaboration` ties the call log to it |
| `Elaboration.Settle` | Eleboration.py:75-84 | the definition of the outcome of an attempt that is not retried: `raise e` for its error, or the folded stream; `Complete` is proved equal to it |
| `Elaboration.Elaborate` | Eleboration.py:61-84 | the definition of the recursive retry over the backend's outcomes; `ElaborateSettlesAfterRotations` states its property and `Elaborator.GenerateElaboration` is proved equal to it |
| `Elaboration.ElaborateSettlesAfterRotations` | Eleboration.py:61-84 | the recursive retry ends at the first attempt that is not a rate-limit failure: its error re-raised unchanged, or its folded stream |
| `Elaboration.InterruptedStreamIsRaised` | Eleboration.py:63-84 | an error raised while the stream is read is not retried and causes no rotation, even when it reports a rate limit |
| `Elaboration.Complete` | Eleboration.py:75-84 | an attempt that is not retried yields its own error or its accumulated stream |
| `Elaboration.Elaborator.constructor` | Eleboration.py:10-18 | five keys, each possibly unset, with the index at 0 |
| `Elaboration.Elaborator.Sent` | Eleboration.py:21-70 | call `j` of a request uses the key `j` rotations past the starting index (the key choice at lines 21-23), and every call carries the same prompt, model, temperature 1 and 300 tokens (the request at lines 60-70) |
| `Elaboration.Elaborator.GetClient` | Eleboration.py:21-23 | the client is built with the key at the current index |
| `Elaboration.Elaborator.RotateApiKey` | Eleboration.py:25-28 | the index advances by one modulo the pool size and stays valid |
| `Elaboration.Elaborator.GenerateElaboration` | Eleboration.py:32-84 | The result is the recursive retry's result. One call is made per leading rate-limit failure plus the one that settles the request, each with the key current at that moment and the same prompt. The index ends advanced by exactly the number of rate-limit failures |
| `App.Falsy` | app.py:124 | the definition of Python's `not v` on JSON values; `Validate` states what the test accepts |
| `App.Validate` | app.py:123-125 | a body is accepted exactly when `user_input` is a non-empty string, which is passed on unchanged; otherwise the exact error message |
| `App.NumberIsRejected` | app.py:123-125 | a numeric `user_input` is rejected with the documented message |
| `App.IsCasualHit` | app.py:129 | the definition of the handler's test that the reply is not the sentinel; `Casual.CasualMatcher.GetFriendlyResponse` proves it holds exactly above the threshold |
| `App.VerseResponse` | app.py:146-160 | A successful elaboration gives status 200 with the entry's four fields, each defaulting to `"N/A"`, and the elaboration text. A failed one escapes as that failure |
| `App.GetResponse` | app.py:122-160 | An invalid body gives 400 and reaches neither the matcher nor the backend. A casual hit gives 200 with the matcher's reply and makes no backend call. It leaves the history unchanged for a known query and appends a new one once. A miss leaves the history alone and answers with the first semantic maximum's fields plus the elaboration of the raw query. The backend calls and the key rotation are as in `GenerateElaboration` |
| `App.RepeatedRequest` | app.py:122-130 | of two identical POSTs that the matcher scores above the threshold, the second is answered with 200 from the repeated bucket and, for an ordinary phrase, never from that phrase's own bucket |

## Left out

- Flask routing, `jsonify`, CORS, the `/` route and `app.run` (app.py:28-29, 116-118, 163-164) are HTTP plumbing. Only the status and body the handler decides are modelled. A request body that is not a JSON object is not modelled.
- Loading `alldata.json` and building the TF-IDF and embedding indexes (app.py:13-25) are file I/O and foreign numerics. The corpus is a given non-empty sequence of entries, and each ranking is one integer score per entry. The corpus must be non-empty because the source fails at startup otherwise. Lines 18-19 also make `translation` and `explanation` present in every entry, so their `"N/A"` defaults cannot fire there. The model still applies the defaults as line 147-148 writes them.
- Cosine similarity, TF-IDF and sentence embeddings are floating-point library code. Only the arg-max over an abstract score sequence is kept.
- rapidfuzz `process.extractOne` (app.py:95) is foreign. It is a function parameter that returns a table key and a score in 0..100. Its scoring, its default processor and its tie-breaking are not modelled, and neither is its `None` result. It returns `None` only for an empty choice list, and the table is never empty.
- `random.choice` (app.py:101, 107) is modelled as "some member of the bucket", not as a uniform draw.
- The Groq client, the network, `load_dotenv`/`os.getenv` and `print` (Eleboration.py:1-16, 28, 64-70) are I/O. Keys are opaque `Option<string>` values. An unset key is carried into the request as `None`. The error the real client may raise while being built with an unset key happens at `get_client`, outside the `try` (Eleboration.py:61). It is not modelled.
- A stream chunk with no `choices` (an `IndexError` at Eleboration.py:80) is not modelled. Every chunk is an optional text fragment.
- The source retries without bound on repeated rate limits until Python's recursion limit stops it. The model is given finitely many attempts and ends with `OutOfAttempts` when they run out while retries continue.
- Races on `user_history` and `current_key_index` between concurrent requests are out of scope. One sequential caller is modelled.
- The prompt's instruction prose is abbreviated to a short stand-in. The labels and the four embedded inputs are kept. The `messages` role wrapper and `stream=True` are not part of `Request`.
- Corpus entries are maps from field names to strings. A field that is present with a JSON `null` makes `.get(name, "N/A")` (app.py:146-148, 156) return `None`, not `"N/A"`. A non-string field, such as a numeric `verse_number`, is formatted with `str()` in the prompt but returned unchanged in the body. The model does not capture either case: every present field is a string.
- JSON numbers are integers. Floating-point values such as `0.0` (falsy in Python) are not modelled.
- `Text.LowerChar`, `Text.ToLower`, `Casual.Normalize`, `Casual.NormalizeIgnoresCase`: lower-case ASCII letters only, because Python's full Unicode lower-casing (including case mappings that change the length) is not modelled. A non-ASCII capital such as 'É' is kept, so "CAFÉ" and "café" normalise differently in the model but alike in the source. The rate-limit test is unaffected: no non-ASCII character lower-cases into the phrase "rate limit".
