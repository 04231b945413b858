# clint-lib in Dafny

A model of the core of clint-lib, the Rust library behind the Clint LLM web
application. Clint turns a patient's statement into clinical notes. It then
proposes candidate diagnoses, ties each one to a condition document of a
medical document database, and answers and cites from that database. The
model covers five parts of the library:

- **The chat-completion client** (`chat.dfy`, module `Chat`):
  - the `ChatCompletionArgs` builders;
  - the request loops that retry on server errors with doubling back-off;
  - the function-calling loop that retries on unparsable arguments;
  - the merge of streamed deltas into one accumulating response (`update_response`);
  - the pull loop of `ChatCompletionParts`.
- **The document database** (`docdb.rs` → `docdb.dfy`, module `DocDb`):
  - hex document ids;
  - parsing of the newline/tab records and id lists, with their errors;
  - the similarity ranking of `get_similar` (an in-place insertion sort on an array, proved against a reference ranking);
  - the PCA mapping;
  - document URLs and the map lookups.
- **The prompt text helpers** (`prompt_utils.dfy`, module `PromptUtils`):
  - `quote_lines`;
  - the excerpt block;
  - the fields of `EmbedStructure`;
  - `get_excerpt` with its walk up the parent chain.
- **The diagnosis helpers** (`diagnosis.dfy`, module `Diagnosis`):
  - Markdown rendering;
  - the first-occurrence de-duplication;
  - the part of `find_diagnosis_doc` that resolves similar documents to their condition, counts them and picks the most frequent.
- **The glue of `lib.rs`** (`lib.dfy`, module `Lib`):
  - the `StateJs` conversation state and its mutators;
  - `diagnoses_to_markdown`;
  - the early returns and the take-8 rule of the `*_js` workflow functions;
  - the citation list of `cite_js`;
  - the projection in `ChatMessageUpdates::next`.

Supporting modules:
- `Wrappers` (`wrappers.dfy`): `Option` and `Result`.
- `Text` (`text.dfy`): `join`, `split`, `str::lines`, `str::trim` and UTF-8 encoding, as Rust's standard library defines them.
- `Hex` (`hex.dfy`): Base16 as the `hex` crate implements it, per section 8 of RFC 4648. It decodes either letter case and encodes in lower case.

How external effects are modelled:
- **Network.** The transport is a `Transport` object whose replies are fixed in advance and which logs every request.
- **Streams.** A stream is the sequence of events its decoder yields.
- **Sleeps.** Delays are recorded as a list of seconds.
- **Prompt modules.** The prompt modules that `lib.rs` calls are function parameters.
- **Scores.** Scores are exact reals.

## Model

| member | source | states |
|---|---|---|
| Chat.NewArgs | src/openai/chat.rs:136-146 | new arguments: GPT-3.5 Turbo, no messages, every option unset |
| Chat.Args.WithModel | src/openai/chat.rs:148-151 | sets the model and changes nothing else |
| Chat.Args.WithMessage | src/openai/chat.rs:153-156 | appends exactly one message at the end, nothing else changes |
| Chat.Args.WithMessages | src/openai/chat.rs:158-161 | appends the messages in order, nothing else changes |
| Chat.WithMessagesIsEachMessage | src/openai/chat.rs:153-161 | appending a list equals appending its messages one by one |
| Chat.Args.WithTemperature | src/openai/chat.rs:163-166 | sets the temperature and nothing else |
| Chat.Args.WithNoFunctions | src/openai/chat.rs:168-171 | clears the function list and nothing else |
| Chat.Args.WithFunction | src/openai/chat.rs:173-180 | appends to an existing function list or creates a singleton list |
| Chat.Args.WithFunctionCall | src/openai/chat.rs:182-185 | sets the forced function call and nothing else |
| Chat.Transport.constructor | src/openai/chat.rs:193-227 | a transport starts with an empty request log |
| Chat.Transport.Send | src/openai/chat.rs:196-204 | one send logs exactly the request and returns the next scripted reply |
| Chat.Retrying | src/openai/chat.rs:193-227 | the retry loop sends at least one request |
| Chat.Backoff | src/openai/chat.rs:219 | the sleep before retry n is 2^n seconds |
| Chat.RetryingPolicy | src/openai/chat.rs:193-227 | at most max_retries + 1 requests; every request but the last hit a server error; a delivered body is returned; any other error, or a server error once retries run out, gives NetworkError |
| Chat.RetrySucceedsAfterTwoServerErrors | src/openai/chat.rs:193-227 | two server errors then a reply, with three retries allowed: three requests and success |
| Chat.RetryGivesUpAfterMaxRetries | src/openai/chat.rs:193-227 | only server errors with two retries allowed: three requests, then NetworkError |
| Chat.SendWithRetries | src/openai/chat.rs:193-227 | the loop sends the same request Retrying's count of times, returns Retrying's result and sleeps 1, 2, 4, … seconds before each retry |
| Chat.AsCompletion | src/openai/chat.rs:210-215 | a delivered body read as a completion, InvalidChatCompletion when it is not one; transport errors pass through |
| Chat.ChatCompletion | src/openai/chat.rs:189-228 | non-streaming requests per the retry policy; a body that is not a completion gives InvalidChatCompletion |
| Chat.NewStream | src/openai/chat.rs:375-413 | streaming requests per the retry policy; on success the body's events |
| Chat.ForcedArgs | src/openai/chat.rs:246-254 | the caller's arguments with the function list replaced by the one function and that function forced |
| Chat.AttemptArgs | src/openai/chat.rs:246-260 | attempt 0 uses the forced arguments; later attempts also set temperature 0.5 |
| Chat.AttemptArgsForceOneFunction | src/openai/chat.rs:243-262 | every attempt offers exactly the one function and forces it, keeps messages, model and limits, and from the second attempt on sets temperature 0.5 |
| Chat.Judge | src/openai/chat.rs:262-282 | what one completion decides: its transport error, EmptyChatCompletion without a first choice or function call, the parsed value, or a retry (FunctionFormatError when no retries are left) on a parse failure |
| Chat.Inspect | src/openai/chat.rs:262-282 | the checks on one completion, made in the source's order, reach exactly Judge's verdict |
| Chat.JudgeRetriesOnlyParseFailures | src/openai/chat.rs:262-282 | only an argument parse failure is retried; transport errors propagate unchanged |
| Chat.Bases | src/openai/chat.rs:243-282 | where each successive chat_completion call of the function-calling loop starts in the replies: the first at the log's length, each next one where the previous stopped |
| Chat.BasesChain | src/openai/chat.rs:243-282 | the first call starts at the given position and call k + 1 starts exactly Retrying's request count after call k |
| Chat.Outcomes | src/openai/chat.rs:243-282 | each call returns what chat_completion returns on the replies from its start |
| Chat.CallsSent | src/openai/chat.rs:243-282 | the log of a run of calls: each call's non-streaming request, repeated once per request it sent, in call order |
| Chat.Logged | src/openai/chat.rs:243-282 | the log grew by exactly the calls' requests, the calls started one after another and returned Outcomes |
| Chat.LoggedCompletion | src/openai/chat.rs:261 | one chat_completion call of the loop extends the accounted log by its own requests and outcome |
| Chat.ChatCompletionFunction | src/openai/chat.rs:234-283 | unserialisable schema gives FunctionParameterError with no request; otherwise 1 to max_retries + 1 chat_completion calls, each with the attempt's arguments, started one after another on the transport's replies (Bases), returning what chat_completion returns there (Outcomes), the log growing by exactly their requests (CallsSent); all but the last judged Retry, the last deciding the result (EmptyChatCompletion, FunctionFormatError, the transport error or the parsed value) |
| Chat.MergeDelta | src/openai/chat.rs:317-358 | a later delta appends content, name and function-call fragments, overwrites role and finish reason, and reports a change exactly when it carried a field |
| Chat.MergeChoice | src/openai/chat.rs:317-358 | a later delta on a choice: content, name and call fragments appended, role and finish reason replaced when present |
| Chat.UpdateChoices | src/openai/chat.rs:296-360 | only the first choice of the update is read: the first delta creates one choice, a later one is merged into choice 0 |
| Chat.ApplyUpdate | src/openai/chat.rs:296-360 | an update without choices changes nothing; otherwise its first choice creates choice 0 or is merged into it |
| Chat.UpdateResponse | src/openai/chat.rs:288-362 | non-UTF-8 gives EncodingError, bad JSON FormatError, `[DONE]` and blank text no change; otherwise the update is applied |
| Chat.Apply | src/openai/chat.rs:288-362 | one payload: EncodingError for bad UTF-8, no change for `[DONE]` or blank text, FormatError for bad JSON, else the update's effect |
| Chat.ApplyNonDeltas | src/openai/chat.rs:290-299 | `[DONE]`, blank payloads and updates without choices return false and leave the response untouched; bad bytes and bad JSON are errors |
| Chat.ApplyFirstDelta | src/openai/chat.rs:301-316 | on an empty response a delta creates exactly one choice: role defaulting to Assistant, content defaulting to "", the delta's name, function-call fields defaulting to "", no finish reason; returns true |
| Chat.ApplyLaterDelta | src/openai/chat.rs:317-358 | with a choice present: content, name and call fragments append (old text stays a prefix), role and finish reason are overwritten, other choices untouched, changed iff the delta carried a field |
| Chat.GrownTransitive | src/openai/chat.rs:317-358 | a response grown twice is grown |
| Chat.GrowExtends | src/openai/chat.rs:318-336 | an appended field keeps its old text in front |
| Chat.GrowCallExtends | src/openai/chat.rs:337-350 | an appended function call keeps its old name and arguments in front |
| Chat.ApplyGrows | src/openai/chat.rs:296-360 | the choice count goes 0 to 1 on a change and never changes otherwise; no appendable field loses text |
| Chat.StepGrows | src/openai/chat.rs:436-455 | one event: a retry is skipped, an error ends with NetworkError, a change ends with the new response; the response only grows |
| Chat.StepOn | src/openai/chat.rs:442-454 | one event: a retry notice or an unchanged payload continues, an error or a bad payload ends with NetworkError, a change ends with the response |
| Chat.Pull | src/openai/chat.rs:435-457 | next as a function: the first event that ends the pull decides, the end of the events gives the end of the stream |
| Chat.PullShortens | src/openai/chat.rs:436-455 | a pull consumes at least one event when there is one |
| Chat.PullConsumes | src/openai/chat.rs:436-455 | a pull leaves a suffix of the events |
| Chat.PullGrows | src/openai/chat.rs:435-457 | a pull returns the response it keeps, fails only with NetworkError and only grows the response |
| Chat.PullEndIsFinal | src/openai/chat.rs:439-442 | once a pull reports the end of the stream, every later pull reports it again |
| Chat.PullContentDelta | src/openai/chat.rs:488-516 | a content delta appends its text to the content so far and ends the pull |
| Chat.PullRoleDelta | src/openai/chat.rs:465-485 | a first role-only delta opens an empty assistant message |
| Chat.PullDone | src/openai/chat.rs:292-294 | the end marker ends the stream |
| Chat.TwoDeltaStream | src/openai/chat.rs:435-457 | role delta, two content deltas and the end marker pull as "", first, first + second, then the end |
| Chat.ChatCompletionParts.constructor | src/openai/chat.rs:424-430 | a stream starts from an empty response |
| Chat.ChatCompletionParts.Next | src/openai/chat.rs:435-457 | the loop consumes events and returns exactly what Pull specifies |
| Chat.NewParts | src/openai/chat.rs:415-433 | opening a stream follows the retry policy and starts from an empty response on the delivered events |
| Hex.DigitValue | src/docdb.rs:32-36 | a hex digit's value is below 16 |
| Hex.DecodeToSlice | src/docdb.rs:32-36 | hex::decode_to_slice: the odd-length and wrong-length errors first, then the first invalid digit, else two digits per byte |
| Hex.LowerDigit | src/docdb.rs:244 | the encoding digit is a lower-case hex digit that decodes to its value |
| Hex.FirstNonHex | src/docdb.rs:34 | the first position that is not a hex digit, every earlier one being one |
| Hex.Encode | src/docdb.rs:244 | two characters per byte |
| Hex.EncodeAt | src/docdb.rs:244 | byte j lands at 2j (high nibble) and 2j + 1 (low nibble) |
| Hex.EncodeDigits | src/docdb.rs:244 | the encoding holds lower-case hex digits only |
| Hex.EncodeDecode | src/docdb.rs:32-36 | the encoding is ASCII, has no upper case, and decodes back to the bytes |
| Hex.DecodeDigits | src/docdb.rs:32-36 | two digits per byte decode to the bytes |
| DocDb.DecodeDocId | src/docdb.rs:32-36 | the decoding loop into a zeroed 16-byte buffer agrees with DocIdFromHex |
| DocDb.DocIdFromHex | src/docdb.rs:32-36 | decode_doc_id: a 16-byte id from its hex, or the hex error |
| DocDb.DocIdFromHexSucceeds | src/docdb.rs:32-36 | an id decodes exactly from 32 hex digits |
| DocDb.DocIdRoundTrip | src/docdb.rs:32-36 | decoding the bytes of hex::encode(id) gives back id |
| DocDb.NonEmpty | src/docdb.rs:109 | the kept pieces are non-empty pieces of the input |
| DocDb.NonEmptyLines | src/docdb.rs:107-109 | the kept lines are non-empty and hold no newline |
| DocDb.NonEmptyKeeps | src/docdb.rs:109 | nothing is dropped when no piece is empty |
| DocDb.NonEmptyLinesOfJoin | src/docdb.rs:107-109 | non-empty newline-free lines joined with newlines read back as themselves |
| DocDb.Columns | src/docdb.rs:120-125 | a record line split at its first tab, or the "line lacks two columns" Record error naming the table |
| DocDb.ParseRecord | src/docdb.rs:126-129 | a record: its columns, then its decoded id, then its value, each error in that order |
| DocDb.ColumnsAtFirstTab | src/docdb.rs:120-125 | a record splits at its first tab only, later tabs stay in the value; a line with no tab is a Record error naming the table |
| DocDb.Collect | src/docdb.rs:130 | collecting records into a map: the first bad line is the error, a later record for an id replaces an earlier one |
| DocDb.CollectSucceeds | src/docdb.rs:126-130 | collecting records succeeds exactly when every line parses |
| DocDb.CollectKeeps | src/docdb.rs:126-130 | lines that do not name an id leave its entry alone |
| DocDb.CollectLastWins | src/docdb.rs:126-130 | the last record for an id decides its entry |
| DocDb.DecodeAll | src/docdb.rs:107-111 | a decoded id list has one id per line |
| DocDb.DecodeAllLines | src/docdb.rs:107-111 | an id list decodes exactly when every line is an id, and lists them line by line |
| DocDb.ParseIds | src/docdb.rs:107-111 | the embedding id list: non-empty lines, each decoded |
| DocDb.ParseIdSet | src/docdb.rs:170-186 | the section and condition sets: non-empty lines, each decoded, collected into a set |
| DocDb.ParseParents | src/docdb.rs:117-130 | the parent table: records whose value is a decoded id |
| DocDb.ParseTexts | src/docdb.rs:132-168 | the title and url tables: records whose value is UTF-8 text, or the table's "isn't a valid string" error |
| DocDb.ReadMatrix | src/docdb.rs:83-105 | a matrix that is read keeps the parsed shape and every entry is the parsed number, so none is NaN |
| DocDb.New | src/docdb.rs:71-200 | a store that is built has one id per embedding row and rectangular arrays |
| DocDb.NewArrayErrors | src/docdb.rs:83-115 | unreadable arrays give ArrayReading, non-matrices ArrayShape, NaN in either matrix NotNan, an id count different from the row count ArrayShape |
| DocDb.NewSucceeds | src/docdb.rs:71-200 | construction succeeds exactly when every resource reads and the id count matches, and the store holds what each resource says |
| DocDb.TitleIsLastRecord | src/docdb.rs:132-149 | a stored title is the value of the last title record for its id |
| DocDb.TextRecordNotUtf8 | src/docdb.rs:142-146 | a title or url that is not UTF-8 fails with the table's "isn't a valid string" record error |
| DocDb.GetTitle | src/docdb.rs:259-261 | present exactly when the id has a title |
| DocDb.GetUrl | src/docdb.rs:264-266 | present exactly when the id has a url |
| DocDb.GetParent | src/docdb.rs:269-271 | present exactly when the id has a parent |
| DocDb.Chain | src/prompt/utils.rs:139-151 | the walk starts at the id, follows parent links and ends at an id without a parent |
| DocDb.ChainMoreFuel | src/prompt/utils.rs:139-151 | a walk that ended does not change with more steps allowed |
| DocDb.EligibleMembers | src/docdb.rs:213-222 | the scored rows are exactly the rows that pass the filter, each with its dot-product score |
| DocDb.Eligible | src/docdb.rs:213-222 | the rows that pass the filter, each with its dot-product score, in row order |
| DocDb.Precedes | src/docdb.rs:224 | the order a stable descending sort leaves: higher score first, equal scores in row order |
| DocDb.Insert | src/docdb.rs:224 | insertion adds exactly the one element |
| DocDb.InsertSorted | src/docdb.rs:224 | insertion keeps a sorted sequence sorted |
| DocDb.Ranking | src/docdb.rs:224 | the reference ranking is a sorted permutation |
| DocDb.SortedUnique | src/docdb.rs:224 | a sorted permutation is unique, so any stable descending sort gives the reference ranking |
| DocDb.TopRanked | src/docdb.rs:225-229 | the returned rows are rows of the store |
| DocDb.TopIdsSize | src/docdb.rs:213-229 | get_similar returns min(n, eligible) ids, each that of its ranked row |
| DocDb.TopRankedEligible | src/docdb.rs:216-222 | every returned row passes the filter and carries its own score |
| DocDb.TopRankedOrdered | src/docdb.rs:224 | non-increasing score; equal scores in row order (the sort is stable) |
| DocDb.TopRankedIsTop | src/docdb.rs:224-229 | no eligible row left out scores above a returned row |
| DocDb.EligibleDistinct | src/docdb.rs:213-222 | no row is scored twice |
| DocDb.EligibleRowsBelow | src/docdb.rs:213-222 | the rows scored so far are below the loop index |
| DocDb.RankingDistinct | src/docdb.rs:224 | a ranking of distinct rows is strictly ordered |
| DocDb.TopIdsZero | src/docdb.rs:225-229 | n = 0 gives nothing |
| DocDb.MovedSorted | src/docdb.rs:224 | moving an element back past those it precedes keeps the prefix sorted |
| DocDb.MovedSame | src/docdb.rs:224 | a move keeps the multiset and the tail |
| DocDb.ShiftBack | src/docdb.rs:224 | the in-place shift moves a[i] to its place among the earlier elements |
| DocDb.Sink | src/docdb.rs:224 | one insertion pass extends the sorted prefix and keeps a permutation |
| DocDb.SortByScore | src/docdb.rs:224 | the in-place sort leaves the array sorted by descending score, ties in row order, as a permutation |
| DocDb.ScoreRows | src/docdb.rs:213-222 | the scoring loop computes the eligible scored rows |
| DocDb.SortScores | src/docdb.rs:224 | sorting the scored rows gives the reference ranking |
| DocDb.GetSimilar | src/docdb.rs:207-230 | get_similar returns the ids of the first n rows of the ranking |
| DocDb.TopIds | src/docdb.rs:207-230 | get_similar's result: the ids of the first n rows of the ranking |
| DocDb.TestDbScores | src/docdb.rs:291-307 | the test store is valid and scores rows 0, 1, 1 against (1, 0) |
| DocDb.TopIdsOf | src/docdb.rs:225-229 | the ids returned read off a known ranking |
| DocDb.SimilarTest | src/docdb.rs:296-307 | the tie between rows 2 and 3 comes out as [02, 03] |
| DocDb.TopTwoOf | src/docdb.rs:225-229 | the first two ids follow the first two ranked rows |
| DocDb.EligibleUnfiltered | src/docdb.rs:296-307 | the test store's rows all score without a filter |
| DocDb.RankingOfTie | src/docdb.rs:224 | equal scores after a lower one keep their order |
| DocDb.SimilarFilteredTest | src/docdb.rs:310-322 | with the filter {01, 02} the result is [02, 01] |
| DocDb.EligibleFiltered | src/docdb.rs:310-322 | the filter keeps rows 0 and 1 only |
| DocDb.RankingOfPair | src/docdb.rs:224 | a higher score ranks first |
| DocDb.PcaMapped | src/docdb.rs:233-239 | the mapped query has the mapping's width, or the query's length without one |
| DocDb.Column | src/docdb.rs:235 | a matrix column has one entry per row |
| DocDb.PcaMappedTests | src/docdb.rs:324-342 | without a mapping the query comes back unchanged; the test mapping takes (1, 0, 2) to (0, 1) |
| DocDb.DocumentUrlNamesDocument | src/docdb.rs:243-251 | the url is origin + "/db/documents/" + the first three hex digits as directories + the hex id + ".md", and the hex in it decodes to the id |
| DocDb.DocumentUrl | src/docdb.rs:243-251 | the url get_document fetches: origin, "/db/documents/", the first three hex digits as directories, the hex id and ".md" |
| Text.JoinAppend | src/prompt/utils.rs:63-67 | joining two non-empty runs is joining each with the separator between |
| Text.IndexOf | src/docdb.rs:121 | the position of the first occurrence |
| Text.IndexOfConcat | src/docdb.rs:121 | the first separator after separator-free text is right after it |
| Text.Split | src/docdb.rs:108 | split gives at least one piece, none holding the separator |
| Text.JoinSplit | src/docdb.rs:108 | joining the pieces of a split gives the input |
| Text.SplitJoin | src/lib.rs:348 | splitting undoes joining separator-free parts |
| Text.StripCR | src/prompt/utils.rs:128 | stripping the carriage return leaves a prefix |
| Text.Lines | src/prompt/utils.rs:128 | no line holds a newline |
| Text.Relined | src/prompt/utils.rs:128 | every line but the last loses a final carriage return |
| Text.LinesOfJoin | src/prompt/utils.rs:127-131 | newline-free lines joined with "\n" read back with lines() as themselves, carriage returns stripped |
| Text.LinesTerminated | src/prompt/utils.rs:127-131 | a final "\n" adds no line |
| Text.LinesCons | src/prompt/utils.rs:128 | lines() of a first line ended by "\n" and the rest |
| Text.TrimStart | src/prompt/utils.rs:156 | removes exactly the leading white space |
| Text.TrimEnd | src/prompt/utils.rs:156 | removes exactly the trailing white space |
| Text.Trim | src/openai/chat.rs:291 | the trimmed text is the slice left after white space at both ends |
| Text.TrimEmpty | src/openai/chat.rs:291 | text trims to nothing exactly when it is all white space |
| Text.Utf8Char | src/lib.rs:337 | a character's UTF-8 encoding is one to four bytes |
| Text.AsciiUtf8 | src/lib.rs:337 | the UTF-8 bytes of ASCII text are its character codes |
| PromptUtils.Quoted | src/prompt/utils.rs:129 | every line gets "> " in front |
| PromptUtils.QuoteLines | src/prompt/utils.rs:126-132 | quote_lines: every line of the content with "> " in front, joined by "\n" |
| PromptUtils.QuoteLinesEmpty | src/prompt/utils.rs:126-132 | quoting gives "" exactly for "" |
| PromptUtils.QuotedLines | src/prompt/utils.rs:126-132 | reading the quoted text back line by line gives the content's lines, each quoted |
| PromptUtils.QuotedNoNewline | src/prompt/utils.rs:129 | quoted lines hold no newline and the last is non-empty |
| PromptUtils.RelinedQuoted | src/prompt/utils.rs:126-132 | dropping line-ending carriage returns commutes with quoting |
| PromptUtils.StripQuoted | src/prompt/utils.rs:129 | a carriage return is stripped the same with or without the quote marker |
| PromptUtils.QuotedLineCount | src/prompt/utils.rs:126-132 | the quoted text has as many lines as the content |
| PromptUtils.QuoteLinesExample | src/prompt/utils.rs:179-185 | "foo\nbar\n\nbaz\n" quotes to "> foo\n> bar\n> \n> baz" |
| PromptUtils.ExcerptsText | src/prompt/utils.rs:60-69 | the excerpts field: each excerpt quoted, a blank line apart |
| PromptUtils.ExcerptsAppend | src/prompt/utils.rs:60-69 | excerpts keep their order: two runs give their blocks a blank line apart |
| PromptUtils.ExcerptsFew | src/prompt/utils.rs:60-69 | no excerpts give ""; one excerpt is its quoted text |
| PromptUtils.CandidatesText | src/prompt/utils.rs:108-115 | the diagnoses field: each candidate's Markdown at depth 1, a blank line apart |
| PromptUtils.NewEmbedStructure | src/prompt/utils.rs:102-119 | EmbedStructure::new: the notes' Markdown, the candidates' text or "" without diagnoses, and the statement quoted line by line ("" without one) |
| PromptUtils.EmbedStructureFields | src/prompt/utils.rs:102-119 | notes as given; diagnoses "" without any, a single candidate's Markdown at depth 1 for one; statement "" exactly when absent or empty |
| PromptUtils.ChainTitles | src/prompt/utils.rs:139-151 | the titles of the walk's documents in walk order, untitled ones skipped |
| PromptUtils.ChainTitlesSpec | src/prompt/utils.rs:141-151 | no titles exactly when no document on the walk has one; the id's own title first when it has one; every title collected is that of a titled document on the walk |
| PromptUtils.ChainTitlesSingle | src/prompt/utils.rs:144-146 | a document contributes exactly its own title, or nothing without one |
| PromptUtils.ChainTitlesAppend | src/prompt/utils.rs:139-151 | titles keep walk order: those of a walk split in two are the first part's followed by the second's |
| PromptUtils.ChainTitlesComplete | src/prompt/utils.rs:139-151 | every titled document on the walk has its title collected |
| PromptUtils.Reversed | src/prompt/utils.rs:155 | the titles back to front |
| PromptUtils.ExcerptNamesDocument | src/prompt/utils.rs:152-162 | an excerpt ends with "<id:" + 32 hex digits + ">" that decode to the document id |
| PromptUtils.ExcerptHeading | src/prompt/utils.rs:152-159 | with titles the excerpt opens with "# " |
| PromptUtils.TagDecodes | src/prompt/utils.rs:157 | the id tag decodes to its id whatever precedes it |
| PromptUtils.ExcerptText | src/prompt/utils.rs:152-162 | the excerpt: with titles, "# " and the root-first titles joined by " > " and a blank line; then the trimmed document, a blank line and "<id:" + hex id + ">" |
| PromptUtils.WalkStep | src/prompt/utils.rs:147-149 | following one parent link from a walk of the parent map lands on the next document, or ends when there is no parent |
| PromptUtils.CollectTitles | src/prompt/utils.rs:139-151 | the walk loop collects the titles of the id and its ancestors, in walk order |
| PromptUtils.GetExcerpt | src/prompt/utils.rs:134-163 | None exactly when the document is missing; otherwise the root-first titles joined by " > " as a heading, the trimmed document and the id tag |
| Diagnosis.CandidateMarkdown | src/prompt/diagnosis/utils.rs:26-37 | the parts loop renders the heading and the non-empty reasoning parts joined by blank lines |
| Diagnosis.CandidateText | src/prompt/diagnosis/utils.rs:26-37 | the heading "<depth># <name>", then each non-empty reasoning part, a blank line apart |
| Diagnosis.CandidateTextBare | src/prompt/diagnosis/utils.rs:26-37 | the rendering is the bare heading exactly when both reasoning parts are empty |
| Diagnosis.ResolvedTextHeading | src/prompt/diagnosis/utils.rs:54-62 | opens with the heading; with refined text it ignores both reasoning parts; without it is the candidate's rendering |
| Diagnosis.ResolvedText | src/prompt/diagnosis/utils.rs:54-62 | with refined text: the heading, a blank line and that text; without: the candidate's Markdown |
| Diagnosis.DedupDiagnoses | src/prompt/diagnosis/utils.rs:113-124 | the loop keeps exactly the first diagnosis for each id |
| Diagnosis.Deduped | src/prompt/diagnosis/utils.rs:113-124 | the first diagnosis for each id among the first n, in input order |
| Diagnosis.DedupedHashes | src/prompt/diagnosis/utils.rs:113-124 | no id is lost and none is added |
| Diagnosis.DedupedDistinct | src/prompt/diagnosis/utils.rs:113-124 | the kept ids are pairwise distinct |
| Diagnosis.DedupedSubsequence | src/prompt/diagnosis/utils.rs:113-124 | the result is a subsequence of the input |
| Diagnosis.DedupedDistinctUnchanged | src/prompt/diagnosis/utils.rs:113-124 | input with distinct ids comes back unchanged |
| Diagnosis.DedupedIdempotent | src/prompt/diagnosis/utils.rs:113-124 | de-duplicating twice is de-duplicating once |
| Diagnosis.NearestIsFirst | src/prompt/diagnosis/utils.rs:84-93 | the nearest condition is on the chain with none before it; none exactly when the chain has no condition |
| Diagnosis.Nearest | src/prompt/diagnosis/utils.rs:82-94 | the first document on the walk that is a condition |
| Diagnosis.Resolve | src/prompt/diagnosis/utils.rs:82-94 | the climbing loop returns the nearest condition among the id and its ancestors, or None when the chain ends first |
| Diagnosis.ResolveAll | src/prompt/diagnosis/utils.rs:80-95 | each similar id resolved in turn, unresolved ones dropped; every result is a condition |
| Diagnosis.Resolutions | src/prompt/diagnosis/utils.rs:80-95 | the conditions the similar ids resolve to, in order, unresolved ids dropped (the flatten) |
| Diagnosis.SectionFilter | src/prompt/diagnosis/utils.rs:73-78 | the filter: introduction and symptom sections |
| Diagnosis.MostFrequent | src/prompt/diagnosis/utils.rs:96-100 | None exactly for no ids; otherwise an id of maximal count |
| Diagnosis.FindDiagnosisDoc | src/prompt/diagnosis/utils.rs:65-111 | None without an embedding or when nothing resolves; the winner has maximal count among the resolved conditions; the result is named by its title, copies both reasoning parts and has no refined text |
| Diagnosis.SimilarEnd | src/prompt/diagnosis/utils.rs:79 | the eight similar documents come from the store, so their parent walks end |
| Lib.Somes | src/lib.rs:346 | flatten keeps exactly the present values |
| Lib.SomesAppend | src/lib.rs:346 | flattening two runs is flattening each |
| Lib.SomesAll | src/lib.rs:282 | nothing is dropped when every value is present |
| Lib.DiagnosesText | src/lib.rs:169-179 | each diagnosis's Markdown at the depth, in order, joined by blank lines |
| Lib.DiagnosesTextFew | src/lib.rs:169-179 | no diagnoses render as ""; one renders as its own Markdown |
| Lib.DiagnosesTextAppend | src/lib.rs:169-179 | diagnoses render in order, a blank line apart |
| Lib.DiagnosesTextOpens | src/lib.rs:169-179 | the rendering opens with the first diagnosis's heading |
| Lib.StateJs.constructor | src/lib.rs:136-143 | no statement, notes or diagnoses and an empty history |
| Lib.StateJs.SetStatement | src/lib.rs:156-158 | replaces only the statement |
| Lib.StateJs.DiagnosesToMarkdown | src/lib.rs:169-179 | "" without diagnoses, otherwise their rendering joined by blank lines |
| Lib.StateJs.AddUserMessage | src/lib.rs:182-189 | appends exactly one user message with content and no name or function call; nothing else changes; a user/assistant transcript stays one |
| Lib.StateJs.AddAssistantMessage | src/lib.rs:192-199 | the same for an assistant message |
| Lib.FirstContent | src/lib.rs:68-76 | errors become OpenAIError; the end of the stream and an empty choice list give None; otherwise the first choice's content |
| Lib.ChatMessageUpdates.constructor | src/lib.rs:205-210 | wraps the stream |
| Lib.ChatMessageUpdates.Next | src/lib.rs:68-76 | one pull of the stream, projected to the first choice's content |
| Lib.StreamedReply | src/lib.rs:68-76 | a role delta, two content deltas and the end marker read as "", first, first + second, then the end |
| Lib.CreateNotesJs | src/lib.rs:215-229 | unchanged without a statement; a prompt failure is returned; otherwise notes replaced, everything else kept |
| Lib.InitialDiagnosisJs | src/lib.rs:233-252 | unchanged without notes; a prompt failure is returned; otherwise diagnoses replaced, everything else kept |
| Lib.Refined | src/lib.rs:266-283 | at most 8 refinements and no more than the diagnoses |
| Lib.Attempt | src/lib.rs:269-282 | one refinement as flatten sees it: its value, or nothing when it failed |
| Lib.RefinedKept | src/lib.rs:266-283 | every kept diagnosis is a successful refinement of one of the first 8, and every such refinement is kept |
| Lib.RefinedAllSucceed | src/lib.rs:266-283 | when all refinements succeed the first 8 are replaced one for one, in order |
| Lib.RefineDiagnosisJs | src/lib.rs:256-289 | unchanged without notes or diagnoses; otherwise diagnoses become the successful refinements of the first 8 |
| Lib.RespondJs | src/lib.rs:294-325 | no reply without notes; the diagnoses are handed over only when asked for; otherwise a fresh stream from an empty response, or the prompt failure |
| Lib.CiteLine | src/lib.rs:335-345 | a line exactly when the id decodes to 16 bytes and has a url, and then "- [title](url)" |
| Lib.CiteLines | src/lib.rs:334-347 | the link lines of the citable excerpts, in order, the others dropped |
| Lib.CiteJs | src/lib.rs:329-350 | the prompt failure, or the cited lines joined by "\n" |
| Lib.CitesDocument | src/lib.rs:335-345 | an excerpt named by hex::encode of a document id is cited exactly when that document has a url, with that url |
| Lib.CiteLinesAppend | src/lib.rs:334-347 | citations keep the excerpts' order |
| Lib.LinkLineUnbroken | src/lib.rs:342 | a link line holds a line break only when its title or url does |
| Lib.CiteTextSplits | src/lib.rs:334-348 | without line breaks in titles and urls the citation text splits back into exactly the cited lines |

## Left out

- Network I/O: the transport is an object with scripted replies. `embed`, the document fetch of `get_document` and `embed_for_db` are not part of this model. Embeddings and fetched documents are parameters (`Option` when they can fail).
- Server-sent event decoding and byte-stream adapters: a stream is the sequence of decoded events. A transport that reports HTTP 5xx as a server error is an assumption of the model. The reqwest client does not report it that way by default.
- `.npy` parsing: a resource is an already parsed matrix, an unreadable header or a non-matrix.
- Floating point: scores and matrices are exact reals, and NaN is a separate value. f32 rounding, `N32` and the temperature's float type are not modelled.
- Sleeping: back-off delays are returned as a list of seconds.
- JSON and JSON-schema handling: the parsed form of a payload is part of the event. Function-argument parsing is a function parameter, and an unserialisable schema is `None`.
- Template rendering (`render_template`, the prompt texts, `Notes::to_markdown`): `EmbedStructure` takes the notes' Markdown as a parameter.
- `StateJs::notes_to_markdown` is left out for the same reason.
- The prompt functions that `lib.rs` calls (`create_update_notes`, `initial_diagnosis`, `refine_diagnosis`, `respond`, `cite`, `rewrite_message`) are function parameters of the workflows. `rewrite_message_js` only wraps its stream and is not modelled separately.
- `join_all` runs the refinements concurrently but keeps their order. The model maps them in sequence.
- WASM glue, `DocDbJs` and `StateJs::to_string`/`from_string` (serde) are not part of this model.
- UTF-8 decoding of title and url bytes is a function parameter. UTF-8 encoding of the cited ids is modelled.
- Lib.CreateNotesJs, Lib.InitialDiagnosisJs: the source consumes the state and drops it on a prompt failure. The model updates the state object in place and leaves it unchanged on failure.
- Diagnosis.MostFrequent: the source breaks ties in hash-map order, which is unspecified. The model picks one id of maximal count, and the contract states only maximality.
- Parent walks: the source's loops in `get_excerpt` and `find_diagnosis_doc` have no cycle guard. The model requires the parent chain of each id to end (`DocDb.ChainEnds`), so a cyclic store is outside it.
- The `Gpt4o` model that the prompt modules name is not declared in `src/openai/chat.rs`. The model enumerates only the declared variants.
- DocDb.GetSimilar, DocDb.TopIds, DocDb.PcaMapped, Diagnosis.FindDiagnosisDoc: a query whose length differs from the embedding width (`get_similar`), or from the PCA mapping's row count (`get_pca_mapped`), makes ndarray's `dot` panic in the source (src/docdb.rs:213-215, 235). The model requires matching lengths, so this panic is not modelled.
- `str::trim` uses the Unicode White_Space set, and `str::lines` strips a `'\r'` only when it comes right before a `'\n'`, as in current Rust.
