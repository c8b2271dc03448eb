# Astronomy query router: a Dafny model

This project models the deterministic core of an LLM-backed astronomy
router. A user asks a question in natural language and the `/query`
endpoint does the following:

- records the question in that user's conversation history;
- asks a language model to classify it as `SQL`, `GAIA`, `IMAGE`,
  `GENERAL` or `INVALID`;
- dispatches on the label:
  - `SQL` and `GAIA`: have the model write an SQL query for the NASA
    Exoplanet Archive or an ADQL query for the Gaia DR3 catalogue, clean and
    allow-list check that query, run it and return the rows;
  - `GENERAL`: return a tutor answer;
  - `IMAGE`: the image branch (see "Left out");
  - `INVALID`: a fixed refusal;
- maps every exception to one HTTP 500 reply.

The model covers the text checks that form the safety boundary on the
model's completions, the history bookkeeping of every branch, and the image
keyword heuristic.

Modules, one per part of the program:

- `Text`: ASCII models of the Python string operations the code uses.
  These are `strip`, `lower`, `upper`, `replace(".", "")`, `startswith`,
  `in`, `splitlines()[0]`, `split(";")[0]`, `split()` and `" ".join`.
  - Whitespace is Python's ASCII `isspace` set: characters 9–13, 28–31 and
    the space.
  - Line boundaries are the ASCII `splitlines` set: characters 10–13 and
    28–30.
  - Case mapping touches only `A`–`Z` and `a`–`z`.
- `Conversation`: turns, the exceptions a request can raise with their
  `str()` text, and `History`. `History` is a class because the Python
  list is shared by reference and appended to in place.
- `Translator`: `classify_question`, `get_sql`, `get_adql` and
  `answer_general`.
  - Each is a method that appends to the caller's `History`.
  - Each is proved against a function of the completion service's reply:
    `Classify`, `GenerateQuery` and `TutorAnswer`.
- `App`: `user_histories` and `unified_query`.
  - `Server` holds a `map<string, History>`, and `UnifiedQuery` updates it
    in place.
  - `Serve` is the reference meaning of one request: its reply, the user's
    whole history afterwards, and the sequence of outbound calls.
  - `Respond` and `UnifiedQuery` are proved equal to `Serve`. Lemmas then
    state what `Serve` does on each branch.
- `ImageApi`: `extract_keyword`.

The completion service is a parameter `complete: (seq<Turn>, Prompt) ->
Result<string>`: given the context turns and the final instruction, it
returns the raw completion text or the exception raised on the way. The
two archive clients are parameters `string -> Result<D>`. The rows are of
an arbitrary type `D`.

Where the intended behaviour described for the system differs from the
code, the model follows the code:

- The classifier's normaliser deletes every `.`, not only trailing ones.
  `" s.q.l. "` is accepted as `SQL`, and `"SQL ."` is refused as `"SQL "`
  (`ClassifyDeletesEveryDot`).
- A successful cycle does not add two turns. It adds four for SQL, GAIA
  and GENERAL and three for INVALID: the user turn, the label turn, and the
  branch's turns. GENERAL records its answer twice.
- A failed query generation does not leave the utterance unanswered: the
  label turn is already recorded. Only a failed classification leaves
  the user turn without an assistant turn after it.
- No error is distinguished to the caller: each becomes status 500 with
  detail `"Internal error: " + str(e)`.

## Model

| member | source | states |
|---|---|---|
| Text.IsSpace | backend/translator.py:109 | definition: the whitespace set of `strip()` and `split()` on ASCII, characters 9–13 and 28–32 |
| Text.IsLineBreak | backend/translator.py:112 | definition: the line boundaries of `splitlines()` on ASCII, characters 10–13 and 28–30 |
| Text.Strip | backend/translator.py:109 | `strip()`: no whitespace is left at either end, every character comes from the input, an already stripped text comes back unchanged, and the result is empty exactly when the input is all whitespace |
| Text.StripSlice | backend/translator.py:109 | what `strip()` keeps is the contiguous run of input characters that starts right after the leading whitespace |
| Text.StripEnds | backend/translator.py:109 | everything `strip()` removes, before and after that run, is whitespace |
| Text.RemoveAll | backend/translator.py:53 | `replace(c, "")`: a character occurs in the result exactly when it occurs in the input and is not `c` |
| Text.RemoveAllConcat | backend/translator.py:53 | deleting from a concatenation is deleting from each part, so with `RemoveAllChar` the kept characters keep their order and their count |
| Text.RemoveAllChar | backend/translator.py:53 | one character is deleted exactly when it is `c` |
| Text.Lower | backend/translator.py:116 | definition: `lower()`, every ASCII upper-case letter mapped to its lower case, everything else kept |
| Text.Upper | backend/translator.py:53 | definition: `upper()`, every ASCII lower-case letter mapped to its upper case, everything else kept |
| Text.StartsWith | backend/translator.py:116 | definition: `startswith(p)`, `s` is at least as long as `p` and begins with it |
| Text.Contains | backend/translator.py:116 | definition: `t in s` for strings, `t` occurs as a contiguous piece at some position |
| Text.LowerStartsWithConcat | backend/translator.py:170 | a `startswith` test that holds on the lowered first piece of a text holds on the lowered whole |
| Text.LowerOccursConcat | backend/translator.py:170 | a piece found at a position of the lowered first piece of a text is found there in the lowered whole |
| Text.LowerIdempotent | backend/translator.py:116 | lower-casing twice is lower-casing once, so the allow-list check gives the same answer on a lower-cased query |
| Text.FirstLine | backend/translator.py:112 | `splitlines()[0]`: a prefix of the input with no line boundary, followed in the input by a boundary unless it is the whole input |
| Text.Before | backend/translator.py:114 | `split(c)[0]`: a prefix of the input without `c`, followed in the input by `c` unless it is the whole input |
| Text.Words | backend/image_api.py:12 | `split()`: every element is a non-empty run of non-whitespace characters whose characters all occur in the input (the order and completeness of the runs are `WordsSplitAt` and `WordsOfWord`) |
| Text.WordsSplitAt | backend/image_api.py:12 | any whitespace character splits the text: the words of the whole are the words before it followed by the words after it, however many separators there are |
| Text.WordsOfWord | backend/image_api.py:12 | a single run of non-whitespace characters splits to exactly itself |
| Text.Join | backend/image_api.py:13 | definition: `" ".join(ws)`, the elements in order with one space between neighbours |
| Text.WordsOfJoin | backend/image_api.py:12-13 | splitting the single-space join of words gives exactly those words back |
| Text.JoinSingleSpaced | backend/image_api.py:13 | a join of words has no leading, trailing or doubled spaces, and is non-empty and stripped when there is a word |
| Text.WordsStrip | backend/image_api.py:13 | stripping a text does not change its words |
| Conversation.Turn | backend/translator.py:62 | definition: one `{"role": ..., "content": ...}` entry of a history list, with the role `user` or `assistant`, as built here and at translator.py:17 and app.py:34 |
| Conversation.History.constructor | backend/app.py:31 | a new history is empty |
| Conversation.History.Append | backend/translator.py:62 | `append` adds exactly the one turn at the end |
| Conversation.Message | backend/translator.py:59 | definition: `str(e)` of each exception: `"Unexpected classification: "` here, `"Invalid SQL from Claude: "` and `"Invalid ADQL from Claude: "` (lines 117, 171), Python's `list index out of range` for `splitlines()[0]` on empty text (lines 112, 166), and `name 'fetch_image' is not defined` (app.py:49) |
| Translator.Label | backend/translator.py:58 | definition: the five labels a classification can give |
| Translator.LabelText | backend/translator.py:58 | definition: each label's text, the upper-case name the classifier must answer with |
| Translator.LabelTexts | backend/translator.py:58 | definition: the set of the five label texts that the membership test accepts |
| Translator.NormalizeLabel | backend/translator.py:53 | after strip, upper and deleting dots, no `.` and no lower-case letter remains |
| Translator.ParseLabel | backend/translator.py:58-59 | accepted exactly when the text is one of the five labels, which then has that text; otherwise "Unexpected classification" raised with the text |
| Translator.Classify | backend/translator.py:52-59 | a failed call propagates; a label results exactly when the normalised completion is one of the five; its text equals the normalised completion; a refusal carries the normalised completion |
| Translator.ParseLabelText | backend/translator.py:58 | each label is recognised as itself, and only its own text gives it |
| Translator.ClassifyDeletesEveryDot | backend/translator.py:53 | `" s.q.l. "` classifies as SQL; `"SQL ."` is refused as `"SQL "` |
| Translator.ClassifyQuestion | backend/translator.py:10-63 | the label is `Classify` of the reply to the history plus the utterance; on success exactly the label turn is appended, on any failure the caller's history is unchanged |
| Translator.CleanQuery | backend/translator.py:109-114 | the cleanup fails (no first line) exactly when the stripped completion is empty; a cleaned query has no `;`, no line boundary and no surrounding whitespace |
| Translator.CleanQueryIsFirstStatement | backend/translator.py:112-114 | both branches of the `;` test are one formula: the text before the first `;` of the first line of the stripped completion, stripped |
| Translator.CleanQueryIdempotent | backend/translator.py:112-114 | cleaning an already cleaned query gives it back |
| Translator.CleanQueryDropsCommentary | backend/translator.py:109-114 | `"SELECT pl_name FROM ps;\nNote: this filters"` cleans to `"SELECT pl_name FROM ps"` |
| Translator.TableRef | backend/translator.py:116 | definition: the table reference each target's query must contain in lower case, `"from ps"` here and `"from gaiadr3.gaia_source"` at line 170 |
| Translator.Dialect | backend/translator.py:117 | definition: the dialect named in the refusal message, `SQL` here and `ADQL` at line 171 |
| Translator.ShapeOk | backend/translator.py:116 | definition: the lower-cased query starts with `select` and contains the target's table reference (the same test for ADQL at line 170) |
| Translator.ShapeOkIgnoresCase | backend/translator.py:116 | the allow-list check does not depend on ASCII case |
| Translator.GenerateQuery | backend/translator.py:108-117 | a failed call or empty completion propagates; otherwise the cleaned query is accepted in its original case exactly when its lower case starts with `select` and contains the target's `from` clause, and refused with the query otherwise; an accepted query is cleaned and passes the check |
| Translator.GenerateOnCleaned | backend/translator.py:112-117 | a completion that is already one clean statement is accepted or refused as it stands |
| Translator.ShapeRejectsDelete | backend/translator.py:116-117 | `"DELETE FROM ps"` is refused as invalid SQL |
| Translator.ShapeAcceptsSelectFromPs | backend/translator.py:116-120 | `"SELECT pl_name FROM ps LIMIT 5"` is accepted unchanged |
| Translator.ShapeRejectsOtherTable | backend/translator.py:170-171 | `"SELECT * FROM stars"` is refused as invalid ADQL |
| Translator.ShapeAcceptsSelectFromGaia | backend/translator.py:170-174 | `"SELECT ra, dec FROM gaiadr3.gaia_source WHERE phot_g_mean_mag < 10"` is accepted unchanged |
| Translator.GetSql | backend/translator.py:67-120 | the result is `GenerateQuery` of the reply to the caller's history plus the SQL request; an accepted query is appended as one assistant turn, a refusal leaves the history unchanged |
| Translator.GetAdql | backend/translator.py:124-174 | the same for the Gaia target and the ADQL request |
| Translator.TutorAnswer | backend/translator.py:195-196 | the answer is the stripped completion, with no further check; a failed call propagates |
| Translator.AnswerGeneral | backend/translator.py:178-198 | the result is `TutorAnswer` of the reply to the history plus the tutor request; on success exactly that answer is appended |
| App.DefaultUser | backend/app.py:27 | definition: the one user id the endpoint uses, `"default_user"` |
| App.InvalidTurn | backend/app.py:70 | definition: the turn the INVALID branch records, `"Invalid question."` |
| App.InvalidMessage | backend/app.py:71 | definition: the refusal the INVALID branch replies with |
| App.MissingName | backend/app.py:49 | definition: `fetch_image`, the name the IMAGE branch looks up without importing it |
| App.Response | backend/app.py:46-74 | definition: the endpoint's reply: the SQL, GAIA, GENERAL and INVALID payloads (lines 46, 67, 59, 71) or the HTTP error of line 74 |
| App.Answer | backend/app.py:46 | definition: the reply of a successful query branch, carrying the query and the rows: the SQL payload here and the GAIA payload at line 67 |
| App.Tag | backend/app.py:45 | definition: the prefix of the tagged query turn, `"SQL: "` here and `"ADQL: "` at line 66 |
| App.Generated | backend/app.py:41 | definition: the query `get_sql` (here) or `get_adql` (line 62) makes from the reply to the history with the label recorded |
| App.Tutored | backend/app.py:57 | definition: the answer `answer_general` makes from the reply to the history with the label recorded |
| App.Failure | backend/app.py:73-74 | definition: an exception becomes status 500 with detail `"Internal error: "` followed by its text |
| App.Intent | backend/app.py:34-37 | definition: the classifier's context is the history with the utterance recorded (line 34), followed by the utterance once more (translator.py:17) |
| App.QueryCycle | backend/app.py:40-46 | definition: the branch's own calls are the query request and, if a query was generated, its archive call; a generated query is recorded, fetched, recorded again with its tag and returned with the rows; a failed fetch stops after the first record; a failed generation records nothing |
| App.GeneralCycle | backend/app.py:56-59 | definition: the branch's one call is the tutor request; a tutor answer is recorded, recorded again, and returned; a failure records nothing |
| App.Route | backend/app.py:40-71 | definition: on the history with the label turn recorded, SQL and GAIA run their query cycles, IMAGE raises the `NameError` for `fetch_image`, GENERAL runs the tutor cycle, INVALID records `"Invalid question."` and refuses; IMAGE and INVALID make no call of their own |
| App.Classified | backend/app.py:37 | definition: a classified request's trace is the classifier's call followed by its branch's own calls |
| App.Serve | backend/app.py:33-74 | definition: the reference meaning of one request: the user turn is recorded; a failed classification ends in `Failure` after the one classifier call; otherwise the label turn is recorded and `Route` dispatches on it, behind the classifier's call |
| App.Respond | backend/app.py:33-74 | the reply, the call sequence and the user's whole new history are those of `Serve` on the old history |
| App.RunQuery | backend/app.py:40-46 | the SQL branch (and the GAIA branch, lines 61-67) equals `QueryCycle` on the generated query |
| App.RunGeneral | backend/app.py:56-59 | the GENERAL branch equals `GeneralCycle` on the tutor's answer |
| App.Server.constructor | backend/app.py:20 | the store starts with no user and no history |
| App.Server.UnifiedQuery | backend/app.py:23-74 | the default user's history (created empty on first use) becomes the history of `Serve`; every other user's history is unchanged; the reply and calls are those of `Serve`; the store's users are the old users plus the default one, and every history in it is either one it held before or a new list |
| App.TwoRequests | backend/app.py:20-34 | the store lives across requests: after two requests on a new store, the default user's history is `Serve` applied to the first request and then to the second on the history the first one left, and each reply is that request's `Serve` reply |
| App.ServeAppendsOnly | backend/app.py:34 | a request only appends: the utterance, then between zero and three assistant turns |
| App.ServeRoutes | backend/app.py:34-40 | once classified, the request is the dispatch on its label, after the user turn and the label turn |
| App.ServeClassificationFailure | backend/app.py:34-37 | a failed classification gives the error reply and leaves the user turn with nothing after it, and nothing is called after the classifier |
| App.ServeSql | backend/app.py:40-46 | an SQL label runs the exoplanet cycle on `GenerateQuery` of the reply to the history with the user and `"SQL"` turns |
| App.ServeGaia | backend/app.py:61-67 | a GAIA label runs the Gaia cycle on `GenerateQuery` of the reply to the history with the user and `"GAIA"` turns |
| App.QueryCycleOutcome | backend/app.py:41-46 | the archive receives exactly the generated query; success records it, then records it again tagged `"SQL: "`/`"ADQL: "`, and replies with the query and the rows; a failed fetch keeps the untagged turn only; a failed generation calls no archive and records nothing |
| App.GeneralCycleOutcome | backend/app.py:56-59 | a tutor answer is recorded twice and returned; a failure records nothing |
| App.ServeGeneralRoute | backend/app.py:56-59 | a GENERAL label runs the tutor cycle after the user and label turns |
| App.ServeInvalid | backend/app.py:69-71 | INVALID records `"Invalid question."`, replies with the fixed refusal and calls nothing after the classifier |
| App.ServeImageAlwaysFails | backend/app.py:48-49 | as written, IMAGE always ends in the error reply for the undefined `fetch_image`, with the label turn recorded |
| App.FailureIsErrorReply | backend/app.py:73-74 | every exception becomes status 500 with detail starting `"Internal error: "` |
| App.ServeErrorReply | backend/app.py:73-74 | every error a request can end in is that one error reply |
| App.QueryErrorReply | backend/app.py:73-74 | the same within a query cycle |
| App.QueryChecked | backend/app.py:41-44 | an archive call in a query cycle carries only a query that passed the cleanup and its target's check |
| App.ServeOnlyCheckedQueriesReachArchives | backend/app.py:37-71 | no unchecked query reaches an archive; nothing but the classifier is called exactly when the label is IMAGE or INVALID or classification failed |
| ImageApi.IsCleanChar | backend/image_api.py:10 | definition: the characters `[a-z0-9 ]` that the filter keeps |
| ImageApi.Stopwords | backend/image_api.py:11 | definition: the twelve stopwords |
| ImageApi.KeepClean | backend/image_api.py:10 | a character occurs in the result exactly when it occurs in the input and is in `[a-z0-9 ]`; clean text is unchanged |
| ImageApi.KeepCleanConcat | backend/image_api.py:10 | the filter of a concatenation is the concatenation of the filters, so with `KeepCleanChar` the kept characters keep their order and their count |
| ImageApi.KeepCleanChar | backend/image_api.py:10 | one character is kept exactly when it is in `[a-z0-9 ]` |
| ImageApi.Keywords | backend/image_api.py:12 | every result word is an input word that is not a stopword; empty exactly when every word is a stopword; unchanged when there is none |
| ImageApi.KeywordsConcat | backend/image_api.py:12 | the filter of a concatenation is the concatenation of the filters, so with `KeywordsOne` every non-stopword is kept in its place |
| ImageApi.KeywordsOne | backend/image_api.py:12 | one word is kept exactly when it is not a stopword |
| ImageApi.Cleaned | backend/image_api.py:9-10 | definition: the text lower-cased, then filtered to `[a-z0-9 ]` |
| ImageApi.ExtractKeyword | backend/image_api.py:4-13 | definition: the non-stopwords of the cleaned text joined with single spaces, or the stripped cleaned text when there are none |
| ImageApi.ExtractKeywordCharset | backend/image_api.py:9-13 | every character of the term is in `a-z`, `0-9` or the space |
| ImageApi.ExtractKeywordWords | backend/image_api.py:11-13 | with a non-stopword present, the term is the non-stopwords in order, single-spaced; splitting it gives them back, and none is a stopword |
| ImageApi.ExtractKeywordFallback | backend/image_api.py:13 | with no non-stopword, the term is the cleaned text stripped |
| ImageApi.CleanedConcat | backend/image_api.py:9-10 | lower-casing then filtering a concatenation is doing so to each part and concatenating |
| ImageApi.ExtractKeywordExample | backend/image_api.py:7 | `"Show me an image of the sun"` gives `"sun"` |
| ImageApi.ExtractKeywordIgnoresCase | backend/image_api.py:9 | inputs that differ only in ASCII case give the same term |
| ImageApi.CleanTextFixed | backend/image_api.py:9-10 | lower-casing and filtering leave already clean text unchanged |
| ImageApi.ExtractKeywordIdempotent | backend/image_api.py:9-13 | extracting from a term gives the term again |

## Left out

- The HTTP calls to the completion service are the `complete` parameter.
  These are `httpx.post`, `raise_for_status` and the JSON path into the
  body. Their failures are one `External` error. The model, the
  temperature, the token limits and the prompt texts are not modelled. A
  `Prompt` records only which instruction is sent and which user text it
  embeds.
- `backend/nasa_api.py` and `backend/gaia_api.py` are not part of this
  model. `query_exoplanet` and `query_gaia` are the fetch parameters.
- `fetch_image` and the rest of `backend/image_api.py` after
  `extract_keyword` are network search. As written, `app.py` never imports
  `fetch_image`, so the IMAGE branch raises `NameError` before any search
  (`ServeImageAlwaysFails`). The model therefore has no success path and no
  "No image found." path for IMAGE.
- FastAPI routing, CORS, the module-level `API_KEY` assertion, `print`
  logging and the `QueryRequest` type are left out. The request is its
  `user_query` string.
- Concurrent requests on the shared `user_histories` dict are left out:
  the model is single-threaded.
- Unicode is reduced to ASCII. Non-ASCII characters are never
  whitespace or line boundaries and have no case. The regular expression
  `[^a-z0-9 ]` is a character filter.
- `\r\n` is two line boundaries in the model and one in Python. Only the
  text before the first boundary is used, so this makes no difference.
- App.RunQuery: `unified_query` writes the SQL and GAIA branches out
  separately. The model shares one method between them, parameterised by
  the target. Each target's prompt, fetcher, reply field and history tag
  is kept.
- App.Respond, App.RunQuery, App.RunGeneral, App.Server.UnifiedQuery: the
  `calls` trace is a ghost output that exists only for the contracts. It
  is not part of the program's result.
