# QueryScribeAI core, modelled in Dafny

QueryScribeAI turns a natural-language question into SQL. Version 2 of its
`/generate-sql` handler works in four steps:

1. Schema-aware retrieval (RAG) picks the `CREATE TABLE` definitions relevant
   to the question. The schema is cut into one chunk per table, the chunks
   are indexed in a vector store, and the definitions of the best-scoring
   chunks are joined into a focused schema.
2. An analyzer plans the query against that schema.
3. A self-correcting agent generates SQL, runs it inside a rolled-back
   transaction and, while it fails, feeds the error back to the language
   model for a corrected query. It stops at success or when its budget of
   attempts is spent.
4. The handler reports the final query, the validation status and message,
   the retrieval metadata and the correction history.

Separately, a validator refuses blank queries, blocks queries that match a
fixed list of dangerous keyword patterns, and checks the syntax of the rest
on the database when one is configured. The settings object holds the
provider choice, its API key and model, the database URL and a few bounded
numeric fields.

The project has seven modules:

- `Wrappers` (wrappers.dfy): `Option` and `Result`.
- `Strings` (strings.dfy): the Python `str` behaviour the code relies on.
  This covers `strip`, `upper`, `lower`, `split`, `join`, `str(n)`, and the
  `\s`, `\w` and `\d` character classes.
- `Config` (config.dfy): core/config.py.
- `Validator` (validator.dfy): db/validator.py. The regular expressions are
  modelled by a hand-written matcher. The matcher is proved equivalent to
  the regular expressions' own meaning.
- `SelfCorrection` (self_correction.dfy): agents/self_correction.py.
  - The language model and the database are oracle functions.
  - The loop is a method of the agent class. It is proved equal to a
    recursive specification function, and the loop's promises are lemmas
    about that function.
- `SchemaRetrieval` (schema_rag.dfy): db/schema_rag.py.
  - The regular-expression scan of `CREATE TABLE` statements is a
    deterministic scanner. It is proved sound and complete against the
    pattern's meaning.
  - The chunk builder is a class method with the source's loops.
  - The vector store's similarity search is an oracle.
- `Pipeline` (pipeline.dfy): the derivations in app/main_v2.py's handler.
  The handler's `get_self_correcting_agent(max_attempts=3)` is the agent with
  a budget of 3.

## Model

| member | source | states |
|---|---|---|
| Config.DefaultSettings | core/config.py:18-95 | Every declared default lies within the field bounds (temperature 0..2, retries 0..10, timeout 10..600). The provider defaults to Google. No API key or database URL is set. |
| Config.ValidateProvider | core/config.py:97-101 | A string is lower-cased. An enumeration member (itself a `str`) becomes its lower-case value. Any other value passes through unchanged. |
| Config.ProviderNameCaseInsensitive | core/config.py:97-101 | With the validator in front of the enumeration, a name selects provider `p` if and only if its lower-case form is `p`'s value. |
| Config.ValidateProviderIdempotent | core/config.py:97-101 | Validating twice gives the same value as validating once. |
| Config.StrippedNonEmptyClean | core/config.py:107 | From comma-free pieces, the comprehension keeps only non-empty, stripped, comma-free origins. |
| Config.ParseCorsOrigins | core/config.py:103-107 | Every origin `parse_cors_origins` returns is non-empty, has no surrounding whitespace and contains no comma. "*" alone gives the one-element list "*". |
| Config.StrippedNonEmptyKeepsClean | core/config.py:107 | Clean origins pass through the comprehension unchanged. |
| Config.CorsOriginsRoundTrip | core/config.py:103-107 | Parsing the comma-join of a list of clean origins gives back that list, in order. |
| Config.GetRequiredApiKey | core/config.py:109-124 | The result is an error if and only if the selected provider's key is missing or empty. The error is the `ValueError` naming that provider's variable. A returned key is never empty. |
| Config.GetModelName | core/config.py:126-135 | The model is the selected provider's own model field. |
| Config.SelectionReadsOnlySelectedProvider | core/config.py:109-135 | Key and model selection read only the selected provider's fields. Settings that agree on those fields select the same key and model. |
| Config.DefaultSelection | core/config.py:126-135 | With the defaults, the model is "gemini-pro" and the key lookup fails with the Google message. |
| Strings.StripLeftSpec | agents/self_correction.py:247 | The left half of `strip()`: it removes exactly the longest all-whitespace prefix. |
| Strings.StripRightSpec | agents/self_correction.py:247 | The right half of `strip()`: it removes exactly the longest all-whitespace suffix. |
| Strings.StripResult | db/schema_rag.py:68 | `strip()` returns a stripped string. That string is empty if and only if the input is all whitespace. |
| Strings.StripSlice | agents/self_correction.py:247 | `strip()` returns a contiguous slice of its input. |
| Strings.StripKeepsAbsent | core/config.py:107 | `strip()` introduces no character that its input did not contain. |
| Strings.StripStripped | core/config.py:107 | `strip()` leaves an already stripped string unchanged. |
| Strings.SpaceRunSpec | db/schema_rag.py:63 | The `\s+` run the scanner measures is all whitespace and cannot be extended. |
| Strings.WordRunSpec | db/schema_rag.py:73 | The `\w+` run the scanner measures is all word characters and cannot be extended. |
| Strings.DigitRunSpec | db/schema_rag.py:73 | The `\d+` run the scanner measures is all digits and cannot be extended. |
| Strings.StripRightChar | db/validator.py:142 | `rstrip(';')` returns a prefix of its input that does not end in ';'. Everything it cut is ';'. |
| Strings.JoinSplit | db/schema_rag.py:68 | Joining the pieces of `split(sep)` with `sep` gives the text back. |
| Strings.SplitCount | app/main_v2.py:125 | `split(sep)` yields one more piece than `sep` has non-overlapping occurrences. |
| Strings.SplitWithout | core/config.py:107 | Splitting a text that lacks the separator yields the text alone. |
| Strings.SplitAtFirst | core/config.py:107 | A split on one character cuts at its first occurrence, then splits the rest. |
| Strings.SplitJoin | core/config.py:107 | Splitting the join of separator-free pieces gives the pieces back. |
| Strings.SplitPiecesWithout | core/config.py:107 | No piece of a split on one character contains that character. |
| Strings.NatToString | app/main_v2.py:184-186 | `str(n)` of a count is a non-empty run of decimal digits with no leading zero, except for 0 itself. |
| Strings.NatToStringRoundTrip | app/main_v2.py:184-186 | Reading the digits of `str(n)` back, most significant first, gives `n`. |
| Strings.NatToStringInjective | app/main_v2.py:184-186 | Different counts are written as different texts. |
| Strings.SmallNatText | app/main_v2.py:184-186 | The counts 1, 2 and 3 are written "1", "2" and "3". |
| Validator.PairMatchFound | db/validator.py:20-26 | A position where the matcher succeeds for `\bA\s+B\b` is a match of the pattern, with the whole whitespace run between the words. |
| Validator.PairMatchIsWholeRun | db/validator.py:20-26 | In any match of `\bA\s+B\b`, `\s+` covers the whole whitespace run, because B starts with a letter. |
| Validator.MatchesAtIsRegex | db/validator.py:19-29 | For every listed pattern shape, the matcher succeeds at a position if and only if the regular expression matches there. |
| Validator.PairRegexMatches | db/validator.py:20-26 | Every match of `\bA\s+B\b` at a position is found by the matcher there. |
| Validator.SearchFromFinds | db/validator.py:70 | The scan from `i` succeeds if and only if the matcher succeeds at some position from `i` to the end. |
| Validator.SearchIsRegex | db/validator.py:70 | The search of a listed pattern succeeds if and only if `re.search` would find a match. |
| Validator.FirstMatchFromIsFirst | db/validator.py:69-71 | The loop returns the first pattern, in list order, that is found. It returns none only when no pattern is found. |
| Validator.DangerousPatternsWellFormed | db/validator.py:19-29 | The nine listed patterns are keyword pairs or single keywords of capital letters. |
| Validator.IsSafeQuery | db/validator.py:57-73 | The verdict is safe if and only if the message is "Query passed safety check". An unsafe verdict's message starts with "Query contains potentially dangerous operation: ". |
| Validator.IsSafeQueryMeaning | db/validator.py:57-73 | A query is safe if and only if no dangerous pattern occurs in its upper-cased text. Otherwise the message quotes the first pattern, in list order, that occurs. A safe query gets "Query passed safety check". |
| Validator.IsSafeQueryFirstFound | db/validator.py:69-71 | When pattern `j` is found and no earlier one is, the verdict is unsafe and quotes pattern `j`. |
| Validator.SearchNeedsFirstLetter | db/validator.py:70 | A pair pattern cannot be found where its first letter never occurs. |
| Validator.UpdatePatternExample | db/validator.py:24 | `\bUPDATE\s+SET\b` does not find the usual `UPDATE <table> SET` form. |
| Validator.GetValidationEngine | db/validator.py:32-55 | There is an engine if and only if the URL is set, non-empty, not the placeholder, and engine creation did not raise. The engine is bound to that URL. |
| Validator.FirstLine | db/validator.py:116 | `split('\n')[0]` is the error text up to its first line break: a prefix of the text with no line break in it, followed by a line break or by the end of the text. |
| Validator.ValidateSqlSyntax | db/validator.py:75-121 | Without an engine the result is (false, "No database configured for validation"). With one, the query is valid if and only if the database executes it, and then the message is "SQL syntax validation successful". A SQLAlchemy error gives "SQL syntax error: " and the first line of its text. Any other error gives "Validation error: " and its text. |
| Validator.NormalizeQuery | db/validator.py:142 | `strip().rstrip(';')` yields a prefix of the stripped query that does not end in ';'. Only semicolons are cut. |
| Validator.ValidateSqlQuery | db/validator.py:123-158 | Blank input gets "Empty query provided". An unsafe query gets the safety verdict. A non-blank, safe query gets (true, the "skipped" message) without an engine, and otherwise exactly `validate_sql_syntax`'s verdict and message on the normalised query. The result is valid if and only if the input is non-blank and safe, and either there is no engine or the database executes the normalised query. |
| Validator.DatabaseConsultedOnlyWhenSafe | db/validator.py:138-158 | A blank query, an unsafe one, or no engine never reaches the database: any two database behaviours give the same verdict. |
| Validator.NoEngineMessages | db/validator.py:153-156 | Without an engine a safe query is accepted with the "skipped" message. The missing-database message of `validate_sql_syntax` never comes out of the full validation. |
| SelfCorrection.ExecuteSql | agents/self_correction.py:159-220 | Without a configured database the result is the no-database failure. Success holds if and only if the database ran the query. A row count is present if and only if a SELECT succeeded. A failure carries `orig` (else the exception text) or the exception text. |
| SelfCorrection.LastThree | agents/self_correction.py:273 | `history[-3:]` is the suffix of length min(3, len). |
| SelfCorrection.AttemptLines | agents/self_correction.py:271-273 | There is one summary line per record, in order. |
| SelfCorrection.PreviousAttempts | agents/self_correction.py:270-274 | The summary is never empty: an empty join becomes "None". |
| SelfCorrection.PreviousAttemptsNone | agents/self_correction.py:270-274 | The summary is "None" if and only if there is no history. |
| SelfCorrection.PreviousAttemptsWindow | agents/self_correction.py:270-274 | The summary depends only on the last three records. |
| SelfCorrection.PreviousAttemptsLines | agents/self_correction.py:270-274 | When no error spans lines, the summary splits into one line per record of the last three, oldest first. |
| SelfCorrection.AttemptLineSingle | agents/self_correction.py:272 | A one-line error gives a one-line summary entry. |
| SelfCorrection.GenerateInitialSql | agents/self_correction.py:239-247 | The initial query is the model's answer to the initial prompt, with no surrounding whitespace. |
| SelfCorrection.CorrectedSql | agents/self_correction.py:270-286 | The corrected query is the model's answer to the correction prompt, with no surrounding whitespace. The prompt carries the failed query, its error text and the summary of the history. |
| SelfCorrection.RunFrom | agents/self_correction.py:316-362 | From any attempt on, the loop keeps the history it was given as a prefix and adds at most one record per remaining attempt. The model calls it reports are at least the attempt it started from. |
| SelfCorrection.Loop | agents/self_correction.py:311-362 | A whole run never holds more records than the budget, and it calls the model at least once. |
| SelfCorrection.ReplaysStep | agents/self_correction.py:324-331 | Recording the next attempt keeps the history an exact replay of what the collaborators produced. |
| SelfCorrection.RunFromFinishes | agents/self_correction.py:318-362 | From any point of a replayed, all-failed history, the loop ends in the finished shape. The shape is: replayed history, at most the budget, only the last record may succeed, success mirrors the last record, and the model is called once per attempt. |
| SelfCorrection.LoopFinishes | agents/self_correction.py:311-362 | Every run of the loop ends in the finished shape. |
| SelfCorrection.HistoryNumbering | agents/self_correction.py:318-331 | Records are numbered 1, 2, ... in order, each carries the executor's verdict on its query, and there are never more records than the budget. |
| SelfCorrection.SuccessShortCircuit | agents/self_correction.py:333-338 | The run succeeds if and only if its last record does, and every earlier record failed. The returned query is the last one executed. |
| SelfCorrection.CorrectionChain | agents/self_correction.py:316-354 | Attempt 1 runs the initial query. Each later attempt runs the correction of the previous failure, given the history so far. The model is called once initially and once per correction. |
| SelfCorrection.Exhaustion | agents/self_correction.py:355-362 | A failed run with a positive budget used the whole budget, every attempt failed, and it returns its last query. |
| SelfCorrection.NoBudget | agents/self_correction.py:316-362 | With a budget of zero or less, the initial query comes back unsuccessful with an empty history. |
| SelfCorrection.CorrectionPrompts | agents/self_correction.py:341-354 | Each correction prompt carries the failed query, its error and the summary of a history that already holds that failure. The next attempt runs the stripped answer. |
| SelfCorrection.NoDatabaseConsumesBudget | agents/self_correction.py:159-165 | Without a database every attempt fails with the no-database message, so the whole budget is used. |
| SelfCorrection.SelfCorrectingAgent.constructor | agents/self_correction.py:75-84 | A new agent has the given budget, an empty history and no model calls counted. |
| SelfCorrection.SelfCorrectingAgent.CorrectSql | agents/self_correction.py:249-286 | One call to the model: the result is the corrected query for the agent's own history, the history is unchanged, and the count of model calls goes up by one. |
| SelfCorrection.SelfCorrectingAgent.GenerateWithCorrection | agents/self_correction.py:288-362 | The returned triple is the loop specification's run, and the agent's history field is that history. The count of model calls goes up by the run's number of calls, which is one for the initial query and one per correction. |
| SchemaRetrieval.FindClose | db/schema_rag.py:63 | The lazy `(.*?)\);` stops at the first `);` at or after the body's start. It finds none when there is none. |
| SchemaRetrieval.TableAtComplete | db/schema_rag.py:63-64 | Whatever `CREATE TABLE\s+(\w+)\s*\((.*?)\);` matches at a position, the scanner finds there, with the same name, body and end. |
| SchemaRetrieval.TableAtSound | db/schema_rag.py:63-64 | Whatever the scanner finds at a position is a match of the pattern there, with the reported end. |
| SchemaRetrieval.FindTablesShape | db/schema_rag.py:63-64 | Every table `findall` returns has a word for a name and a body without `);`. |
| SchemaRetrieval.DefinitionMatches | db/schema_rag.py:99 | A rebuilt `CREATE TABLE name (body);` definition is a match of the table pattern at its start. |
| SchemaRetrieval.DefinitionRoundTrip | db/schema_rag.py:99 | Scanning a definition rebuilt from a found table finds exactly that table again. |
| SchemaRetrieval.SizeSuffix | db/schema_rag.py:73 | The optional `\(\d+\)` suffix spans only parentheses and digits within the line. SizeSuffixSpec states that it is a whole `(digits)` or nothing. |
| SchemaRetrieval.SizeSuffixSpec | db/schema_rag.py:73 | What follows the type word is taken as a whole `(digits)` or not at all. A `(digits)` that starts there ends where the taken one does, so a size that is present is always taken whole. |
| SchemaRetrieval.UpToNewline | db/schema_rag.py:73 | `(.*)` without DOTALL takes the text up to the first line break. |
| SchemaRetrieval.Constraints | db/schema_rag.py:79 | The constraints are stripped and hold no line break. |
| SchemaRetrieval.ParseColumn | db/schema_rag.py:73-80 | The parser measures the name, the whitespace and the type word as whole runs, then the size. ParseColumnGreedy, ParseColumnSound and ParseColumnComplete state that the result is exactly `re.match` of the column pattern. |
| SchemaRetrieval.ParseColumnGreedy | db/schema_rag.py:73-80 | For the match `re.match` reports, the parser returns its groups. That match has the whole name, the whole whitespace, the greedy type word, and a size taken whenever one follows. The groups are the name, the type with its size, and the rest up to a line break, stripped. |
| SchemaRetrieval.ParseColumnSound | db/schema_rag.py:73-80 | Every column the parser returns is the groups of such a match. |
| SchemaRetrieval.ParseColumnComplete | db/schema_rag.py:73-74 | When the pattern matches a line in any way, the parser finds a column. |
| SchemaRetrieval.VarcharSizeKept | db/schema_rag.py:73-80 | "name VARCHAR(100)" parses as the column "name" of type "VARCHAR(100)" with no constraints. |
| SchemaRetrieval.ParseColumnShape | db/schema_rag.py:73-80 | A parsed column's name is a word that starts the line. Its type starts with a word character. No part spans two lines, and the constraints are stripped. ParseColumnGreedy ties the parts to the pattern's groups. |
| SchemaRetrieval.CommaSplitsSize | db/schema_rag.py:68-80 | The fragment `price DECIMAL(10` of `DECIMAL(10,2)` parses as type "DECIMAL" with constraints "(10". |
| SchemaRetrieval.SizeTailDropped | db/schema_rag.py:73-74 | The fragment `2)` after that comma is not a column. |
| SchemaRetrieval.ColumnLines | db/schema_rag.py:68 | There is one stripped line per comma-separated fragment. |
| SchemaRetrieval.ColumnMatches | db/schema_rag.py:71-73 | There is one match attempt per line. |
| SchemaRetrieval.Present | db/schema_rag.py:74-80 | The kept columns are never more than the lines. PresentAppend and PresentSingle state which columns are kept and in what order. |
| SchemaRetrieval.PresentInOrder | db/schema_rag.py:71-80 | When every line matches, there is one column per line, in declaration order. |
| SchemaRetrieval.PresentFromMatches | db/schema_rag.py:74-80 | A column is kept if and only if some line's match produced it. |
| SchemaRetrieval.PresentAppend | db/schema_rag.py:71-80 | The columns of two runs of lines are the first run's columns followed by the second's. |
| SchemaRetrieval.PresentSingle | db/schema_rag.py:73-80 | One line adds its column when it matched, and nothing otherwise. |
| SchemaRetrieval.Names | db/schema_rag.py:98 | The metadata's `columns` are the column names, in order. |
| SchemaRetrieval.DetailTexts | db/schema_rag.py:88-92 | There is one detail line per column, in order. |
| SchemaRetrieval.DetailTextSingle | db/schema_rag.py:89-91 | A column without line breaks gives a one-line detail. |
| SchemaRetrieval.ColumnsSingleLine | db/schema_rag.py:68-80 | No part of any parsed column spans two lines. |
| SchemaRetrieval.SummaryLinesSingle | db/schema_rag.py:84-92 | None of the summary's lines holds a line break of its own. |
| SchemaRetrieval.PageContentLines | db/schema_rag.py:84-92 | The page content splits at line breaks into the following lines, then an empty tail: `Table: name`, `Columns: names`, `Column details:`, one detail line per column. |
| SchemaRetrieval.ParseSchema | db/schema_rag.py:50-110 | There is one chunk per table the scan finds. |
| SchemaRetrieval.ChunkRoundTrip | db/schema_rag.py:95-100 | Every chunk names its table, its `column_count` equals the number of its columns, and its `full_definition` parses back to that very chunk. |
| SchemaRetrieval.Definitions | db/schema_rag.py:178-182 | The schema parts are the relevant results' full definitions, in order. |
| SchemaRetrieval.Relevant | db/schema_rag.py:168-171 | The filter never keeps more results than the search returned. |
| SchemaRetrieval.RelevantFilter | db/schema_rag.py:168-171 | The threshold filter keeps exactly the results whose score reaches it. It keeps all of them, in order, when all reach it. RelevantAppend gives the order for mixed scores. |
| SchemaRetrieval.RelevantAppend | db/schema_rag.py:168-171 | Filtering two runs of results gives the survivors of the first run followed by those of the second, so the search's order is kept. |
| SchemaRetrieval.RelevantSingle | db/schema_rag.py:168-171 | One result is kept if and only if its score reaches the threshold. |
| SchemaRetrieval.RetrievedSchema | db/schema_rag.py:155-194 | `retrieve_relevant_schema` on a state. RetrievedSchemaShape states what it returns. |
| SchemaRetrieval.RetrievedSchemaShape | db/schema_rag.py:155-194 | This holds for a search that returns at most `k` results, all stored chunks. Before loading, the result is "". Otherwise it joins with blank lines the definitions of the results that reach the threshold, in the search's order. There are at most `top_k` of them, and each is a stored chunk. |
| SchemaRetrieval.IndexThenTableNames | db/schema_rag.py:112-136 | Indexing a schema with tables makes the listed table names its tables, in order. A schema without tables leaves the listing as it was. |
| SchemaRetrieval.Indexed | db/schema_rag.py:112-136 | The state after `index_schema`. IndexThenTableNames and ClearedState state its effect. |
| SchemaRetrieval.Cleared | db/schema_rag.py:220-226 | The state after `clear_index`. ClearedState states its effect. |
| SchemaRetrieval.TableNames | db/schema_rag.py:203-218 | `get_all_table_names` on a state. IndexThenTableNames and ClearedState state what it lists. |
| SchemaRetrieval.ClearedState | db/schema_rag.py:220-226 | Indexing and clearing keep "store present if and only if loaded". Clearing is idempotent and leaves nothing to retrieve or list. |
| SchemaRetrieval.SchemaRag.constructor | db/schema_rag.py:45-46 | A new instance has no store and is not loaded. |
| SchemaRetrieval.SchemaRag.CollectColumns | db/schema_rag.py:68-80 | The column loop keeps, in order, the columns of the fragments that match. |
| SchemaRetrieval.SchemaRag.BuildPageContent | db/schema_rag.py:84-92 | The summary loop builds the page content: three header lines, then one line per column. |
| SchemaRetrieval.SchemaRag.BuildChunk | db/schema_rag.py:66-105 | The loop body builds the chunk of one found table. |
| SchemaRetrieval.SchemaRag.BuildChunks | db/schema_rag.py:66-105 | The table loop builds one chunk per table, in order. |
| SchemaRetrieval.SchemaRag.ParseSchemaToChunks | db/schema_rag.py:50-110 | The result is the chunks of the tables the scan finds. |
| SchemaRetrieval.SchemaRag.IndexSchema | db/schema_rag.py:112-136 | A schema without tables changes nothing. Otherwise the store holds its chunks and the instance is loaded. |
| SchemaRetrieval.SchemaRag.RetrieveRelevantSchema | db/schema_rag.py:155-194 | The result is the focused schema of the current state. |
| SchemaRetrieval.SchemaRag.GetAllTableNames | db/schema_rag.py:203-218 | The result is the table names of the stored chunks, or none before loading. |
| SchemaRetrieval.SchemaRag.ClearIndex | db/schema_rag.py:220-226 | The store is dropped and the loaded flag cleared. Without a store nothing changes. |
| SchemaRetrieval.Registry.constructor | db/schema_rag.py:230 | The shared slot starts empty. |
| SchemaRetrieval.Registry.GetSchemaRag | db/schema_rag.py:240-243 | The first call creates a fresh, unloaded instance. Later calls return the same one. |
| SchemaRetrieval.Registry.InitializeSchemaRag | db/schema_rag.py:246-255 | The shared instance, created if need be, is the only one indexed with the schema. |
| Pipeline.ResolveSchema | app/main_v2.py:100-102 | The request's schema is used unless it is missing or empty. Then the sample file is used. When the file is missing too, the result is a 400 with the fixed detail. |
| Pipeline.ChooseSchema | app/main_v2.py:110-134 | The retrieved text is used only when retrieval is on and returned something. `tables_retrieved` then counts its `CREATE TABLE` occurrences; otherwise it is 0. |
| Pipeline.SelectSchema | app/main_v2.py:107-134 | The schema choice against the retrieval state, with `top_k` 5. SchemaFallback states it. |
| Pipeline.SchemaFallback | app/main_v2.py:110-134 | Without a loaded index, or with nothing above the threshold, the full schema is used and no table is counted. |
| Pipeline.ValidationMessage | app/main_v2.py:183-187 | The validation message of a finished run. SuccessMessageShape, SuccessSuffix and FailureMessageShape state its form. |
| Pipeline.SuccessMessageShape | app/main_v2.py:183-187 | The success message starts with "Query executed successfully". It is that bare sentence if and only if at most one attempt ran. |
| Pipeline.SuccessSuffix | app/main_v2.py:184 | After correction, the success message is the sentence, " after ", decimal digits that spell the number of attempts, and " attempts". |
| Pipeline.FailureMessageShape | app/main_v2.py:183-187 | A failure message ends with the last record's error, or with "Unknown error" when there is no record. |
| Pipeline.FormatHistory | app/main_v2.py:192-199 | The history is `None` if and only if there are no records. Otherwise there is one entry per record, in order, with its number, error and verdict. |
| Pipeline.GenerateSql | app/main_v2.py:83-216 | The handler as a function of the request and its collaborators. HandlerOutcome and the message lemmas state its result. |
| Pipeline.BuildResponse | app/main_v2.py:156-215 | The status is success if and only if the run succeeded. The attempts field is the history length. Correction counts as applied if and only if there was more than one attempt. `tables_retrieved` is present if and only if retrieval is on. |
| Pipeline.HandlerOutcome | app/main_v2.py:99-157 | A request fails only when no schema can be found, with a 400. Otherwise it reports 1 to 3 attempts and always has a history. Correction counts as applied if and only if the first attempt failed, and a failure used all 3 attempts. |
| Pipeline.FailedAfterThree | app/main_v2.py:183-187 | A run that failed three times is reported by the fixed three-attempt sentence plus the third record's error. |
| Pipeline.FailureMessageNamesLastError | app/main_v2.py:147-187 | Every failed request reports three attempts and ends its message with the third record's error. |
| Pipeline.SucceededAfter | app/main_v2.py:183-187 | A successful run of one, two or three attempts is reported as "Query executed successfully", "... after 2 attempts" or "... after 3 attempts". |
| Pipeline.SuccessMessageNamesAttempts | app/main_v2.py:147-187 | A successful request reports one attempt with the bare sentence, and two or three attempts with " after 2 attempts" or " after 3 attempts" appended. |
| Pipeline.NoDatabaseResponse | app/main_v2.py:147-187 | Without a configured database every answered request fails after three attempts, with the no-database message as its last error. |

## Left out

- Character classes and case mapping are ASCII only. Python's `\w`, `\d`, `upper()` and `lower()` also act on non-ASCII letters and digits. Whitespace is Python's full `str.isspace` set.
- The language model, the embedding model, the vector store's similarity search and SQLAlchemy are oracles. Their inputs are modelled; their behaviour is not.
- Execution time is not modelled. An elapsed time is a real number the database oracle reports. The response's `execution_time_ms`, the record timestamps and the clock are left out.
- Loading settings from the environment and the `.env` file is left out. `Settings` is the already-loaded object, and the field bounds are stated as a predicate that the defaults meet.
- The unsupported-provider branches of `get_required_api_key` and `get_model_name` are not modelled. The enumeration has three members, so they cannot be reached.
- Concurrency (`asyncio.to_thread`, the startup event), logging, the `lru_cache` on the validation engine and `clear_validation_cache` are left out. Engine creation failure is a boolean parameter.
- `Chroma.from_documents` with a persist directory may add to an existing collection. The model replaces the store's contents with the new chunks.
- `get_all_table_names` reads the store's metadata through `vectorstore.get()`. The model reads the stored chunks directly; every chunk carries a `table_name`.
- `top_k` is a natural number. A negative `top_k` is not modelled.
- The similarity search is trusted to return at most `k` results, all of them stored chunks. The statements about retrieval hold for such a search.
- SelfCorrection.CorrectedSql: the `attempt_number` argument of `correct_sql` is dropped, because the source never reads it.
- The analyzer and the explainer are functions passed in. The `plan` response field (the `isinstance(..., dict)` test) is not modelled.
- The handler's catch-all 500 error and the exception handlers are left out, and so is the result of the `get_all_table_names` call that the handler makes and never uses.
- `tables_retrieved` counts the occurrences of the exact text `CREATE TABLE` in the focused schema, not tables, and the model counts the same way. The two agree unless a table body itself contains that text.
