# Bible study app: a verified model of its core

This project models, in Dafny, the logic layer of a web-based Bible study
tool. Users browse the 66 books chapter by chapter. They ask an AI assistant
for a chapter summary, a commentary on a chapter or on a selected excerpt
from one of three theological perspectives, or a theological essay on a
topic. They then chat about the chapter on screen. The model covers these
parts:

- **Offline Bible service.** The book-alias table and its reverse index,
  name normalisation, book lookup (direct abbreviation first, then the
  alias table), 1-based chapter range checks, conversion of a stored
  chapter into the reader's chapter record, the load-once memo of datasets,
  and the offline allow-list.
- **Memory service.** Two records under two fixed storage keys, each with a
  chat history trimmed to the newest 50 messages. Storage failures are
  swallowed.
- **Prompt dispatchers.** The browser client of the chat gateway and the
  direct Azure OpenAI client. Each maps the five request kinds to a prompt,
  a type tag, a token budget and settings. The gateway client decodes the
  reply; the Azure client builds its SDK client lazily, once, and never
  without an API key. Both collapse failures to one fixed message per kind.
- **Chat gateway.** The serverless function. It answers the CORS preflight
  and refuses other non-POST methods. It then checks configuration, the
  request body and the request type, in that order. It forwards one
  completion and maps upstream errors to HTTP statuses.
- **Remote chapter fetch.** URL construction with `encodeURIComponent`
  (proved injective through a decoder) and the layered error messages.
- **Explorer and chat view state.** Footnote-marker stripping, the
  chapter-count table and grid, the selection threshold, which state fields
  each handler resets, and the chat transcript. The transcript only grows.
  A question is only sent when no reply is pending.
- **Book list.** The 66 canonical books and their stable sort by name.

The model follows the code. There is no tiered chapter cache, chapter
expiry, FIFO eviction or offline-then-remote fallback. The explorer loads
every chapter from the remote API in one request with no cache in front,
and the offline service is never called from the screens modelled here.

Network, SDK and storage calls are not modelled. What they produced is a
parameter of the operation that awaited them:

- an HTTP reply with its `ok` flag, status and parsed body or parse error;
- a completion's content or thrown error;
- whether the SDK's client constructor threw;
- whether a storage call failed.

JavaScript values are written out explicitly:

- `||` on strings (`JsText.OrElse`);
- `trim` and the `\s` class with ECMAScript's white-space set;
- decimal rendering of numbers;
- string `length` in UTF-16 code units;
- thrown values, which are an `Error` with a message or any other value.

Each state-holding source module becomes a class whose methods are proved
equal to a pure specification function on a snapshot of its state; the
properties are proved about those functions. The pure modules are
functions with lemmas.

Files, one module each: `wrappers.dfy`, `js_text.dfy`, `bible_types.dfy`,
`uri_component.dfy`, `bible_books.dfy`, `chapter_grid.dfy`,
`book_aliases.dfy`, `offline_bible.dfy`, `memory.dfy`, `prompts.dfy`,
`secure_api.dfy`, `azure_openai.dfy`, `chat_gateway.dfy`,
`bible_service.dfy`, `bible_explorer.dfy`, `chat_interface.dfy`,
`end_to_end.dfy`.

## Model

| member | source | states |
|---|---|---|
| BookAliases.BookMappingsWellFormed | services/offlineBibleService.ts:10-77 | The alias table has 66 keys, every alias appears under exactly one key and only once there, aliases are lower-case letters and digits, and every key lists itself |
| BookAliases.BuildAbbrevIndex | services/offlineBibleService.ts:80-85 | The nested loops that fill `ABBREV_TO_BOOK` produce exactly the reverse index of the table, built book by book in table order |
| BookAliases.ReverseIndexMeaning | services/offlineBibleService.ts:80-85 | For a table with unique lower-case aliases, the reverse index sends every alias to the key listing it and holds nothing but aliases |
| BookAliases.AbbrevToBookMeaning | services/offlineBibleService.ts:10-85 | For the table as written: every alias maps to its own key, the index's keys are exactly the aliases, and `BOOK_MAPPINGS[key]` returns that key's row |
| JsText.Property | services/offlineBibleService.ts:130 | Reading `BOOK_MAPPINGS[key]`, or any other object literal with distinct keys, finds nothing exactly when no entry has the key, and otherwise returns the value stored under that key |
| OfflineBible.FindAbbrev | services/offlineBibleService.ts:124 | `find` by abbreviation returns the first stored book whose abbreviation equals the name, or nothing when none does |
| OfflineBible.FindAbbrevIn | services/offlineBibleService.ts:131 | `find` with `includes` returns the first stored book whose abbreviation is one of the aliases, or nothing |
| OfflineBible.FindBookByName | services/offlineBibleService.ts:120-135 | Book lookup (corrected, see Findings); any book it returns is one of the dataset's books |
| OfflineBible.NormalizeIgnoresSpacing | services/offlineBibleService.ts:121 | White space inserted anywhere in a name does not change the normalised name, so "1 Samuel" and "1samuel" look up alike |
| OfflineBible.NormalizeIgnoresCase | services/offlineBibleService.ts:121 | An upper-cased name normalises to the same name as the original, so "1 SAMUEL" and "1 samuel" look up alike |
| OfflineBible.DirectMatchWins | services/offlineBibleService.ts:124-125 | A stored book whose abbreviation is the normalised name is returned, the first such one, before the alias table is consulted |
| OfflineBible.AliasFallback | services/offlineBibleService.ts:127-132 | Without a direct match, an alias of a canonical book is looked up through the alias table |
| OfflineBible.FindByAliasOfBook | services/offlineBibleService.ts:128-131 | Lookup through the table returns the first stored book whose abbreviation is any alias of the same canonical book, or nothing |
| OfflineBible.UnknownNameFindsNothing | services/offlineBibleService.ts:134 | A name that is neither a stored abbreviation nor an alias finds nothing |
| OfflineBible.EveryAliasFindsItsBook | services/offlineBibleService.ts:120-134 | Every alias of a canonical book finds a book when the dataset stores that book under any of its aliases |
| OfflineBible.FindBookByNameAsWritten | services/offlineBibleService.ts:120-135 | Lookup as written throws exactly when there is no direct match, the normalised name is not an alias but is an inherited object property, and the dataset is non-empty |
| OfflineBible.AsWrittenAgreesOtherwise | services/offlineBibleService.ts:128-132 | Away from inherited property names, lookup as written and the corrected lookup return the same book |
| OfflineBible.ProtoNameThrows | services/offlineBibleService.ts:128-131 | For "__proto__" and a one-book dataset, the lookup as written throws, while the corrected lookup returns nothing |
| OfflineBible.ConvertToChapterFormat | services/offlineBibleService.ts:140-144 | Conversion fails exactly when the chapter index is outside the book, with the message "Chapter N not found in Book" |
| OfflineBible.ConvertedChapter | services/offlineBibleService.ts:146-159 | A converted chapter numbers its verses 1..n in order, keeps each stored text unchanged and in place, joins the texts with single spaces, has reference "Book N", and upper-cases the translation name |
| OfflineBible.ChapterFromData | services/offlineBibleService.ts:168-177 | An unknown book fails with `Book "X" not found in offline T Bible`; a chapter outside 1..N fails with a message ending in "Available chapters: 1-N" |
| OfflineBible.ChapterFromDataMeaning | services/offlineBibleService.ts:168-180 | A chapter is delivered exactly when the book is found and 1 <= chapter <= N; it is the stored chapter at index chapter-1 and the conversion's own error never surfaces |
| OfflineBible.LoadOutcome | services/offlineBibleService.ts:100-110 | A refused response fails with "Failed to load T Bible data"; a success is exactly the parsed body of an ok response |
| OfflineBible.LoadFromMemo | services/offlineBibleService.ts:94-96 | A memoised translation is returned from the memo, with no fetch, whatever the network would say |
| OfflineBible.LoadFetches | services/offlineBibleService.ts:98-110 | A miss fetches the translation's file; only a successful load is stored, so a failed one leaves the memo unchanged and no other translation's entry changes |
| OfflineBible.LoadTwice | services/offlineBibleService.ts:93-110 | After a successful load, a second load returns the same books without a request |
| OfflineBible.SummariesMeaning | services/offlineBibleService.ts:208-212 | One summary per stored book, in order, with its abbreviation, upper-cased abbreviation as its name, and its chapter count |
| OfflineBible.OfflineBibleStore.LoadBibleData | services/offlineBibleService.ts:93-115 | The memo and the result after one `loadBibleData` call are those of the load step, for the path fetched |
| OfflineBible.OfflineBibleStore.FetchOfflineChapter | services/offlineBibleService.ts:165-186 | A failed load is rethrown unchanged; otherwise the result is the chapter found in the loaded data; the memo changes as one load step |
| OfflineBible.OfflineBibleStore.GetOfflineBibleBooks | services/offlineBibleService.ts:205-217 | The summaries of the loaded dataset, or the empty list when loading fails |
| OfflineBible.AvailableOfflineTranslations | services/offlineBibleService.ts:198-200 | The list is exactly "kjv" then "web", two distinct names |
| OfflineBible.AvailableListMeaning | services/offlineBibleService.ts:191-200 | A name is listed exactly when it is offered offline and already lower-case, so the list and the availability test agree |
| OfflineBible.AvailabilityMeaning | services/offlineBibleService.ts:191-193 | A translation is available exactly when its lower-cased name is "kjv" or "web"; case does not matter; an available name in lower case selects its own file |
| OfflineBible.UpperCaseKjvLoadsWeb | services/offlineBibleService.ts:100 | The file choice is case-sensitive while availability is not: "KJV" is available but its dataset path is web.json |
| Memory.KeepNewest | services/memoryService.ts:112-115 | Trimming keeps min(n, 50) messages, and they are the newest ones, in order |
| Memory.AppendBounded | services/memoryService.ts:102-115 | After an append the history has min(old + 1, 50) entries, ends with the new message, and before it holds the newest old messages in order |
| Memory.AppendBelowLimit | services/memoryService.ts:113-115 | A history below the bound loses nothing when a message is added |
| Memory.AddingKeepsOtherFields | services/memoryService.ts:117-120 | Adding a message changes no field of the record other than the history |
| Memory.LoadAfterSave | services/memoryService.ts:48-91 | A load after a save returns the saved record, and saving one record leaves the other one's load unchanged |
| Memory.LoadAfterClear | services/memoryService.ts:56-99 | A load after a clear returns the empty record, and clearing one record leaves the other one unchanged |
| Memory.MemoryService.SaveBibleState | services/memoryService.ts:48-54 | The Bible record is stored under its key, or storage is unchanged when the call fails; nothing is raised |
| Memory.MemoryService.LoadBibleState | services/memoryService.ts:56-64 | The stored Bible record, or the empty record when the key is missing, the value does not parse, or storage fails |
| Memory.MemoryService.ClearBibleState | services/memoryService.ts:66-72 | The Bible key is removed, or storage is unchanged when the call fails |
| Memory.MemoryService.SaveStudyState | services/memoryService.ts:75-81 | The study record is stored under its key, or storage is unchanged when the call fails |
| Memory.MemoryService.LoadStudyState | services/memoryService.ts:83-91 | The stored study record, or the empty record when the key is missing, the value does not parse, or storage fails |
| Memory.MemoryService.ClearStudyState | services/memoryService.ts:93-99 | The study key is removed, or storage is unchanged when the call fails |
| Memory.MemoryService.AddBibleChatMessage | services/memoryService.ts:102-121 | Storage afterwards holds the loaded Bible record with the stamped message appended and trimmed, under the Bible key only |
| Memory.MemoryService.AddStudyChatMessage | services/memoryService.ts:123-142 | Storage afterwards holds the loaded study record with the stamped message appended and trimmed, under the study key only |
| Memory.AddBibleMessageThenLoad | services/memoryService.ts:102-121 | After adding a Bible chat message, loading gives the old history with the message appended and trimmed; the study record is untouched |
| Memory.AddStudyMessageThenLoad | services/memoryService.ts:123-142 | After adding a study chat message, loading gives the old history with the message appended and trimmed; the Bible record is untouched |
| BibleBooks.ChronologicalNamesDistinct | util/bibleBooks.ts:3-26 | The canonical list has 66 books with pairwise distinct names |
| BibleBooks.TestamentSplit | util/bibleBooks.ts:3-26 | The first 39 books, Genesis to Malachi, are Old Testament; the last 27, Matthew to Revelation, are New Testament |
| BibleBooks.InsertByName | util/bibleBooks.ts:28 | Inserting into a sorted list keeps it sorted and adds exactly the one book |
| BibleBooks.SortByName | util/bibleBooks.ts:28 | The sort returns a permutation of its input that is non-decreasing under the name order |
| BibleBooks.AlphabeticalBooks | util/bibleBooks.ts:28 | The alphabetical list is a permutation of the canonical list, sorted by name; the canonical list itself is not reordered |
| BibleBooks.AlphabeticalIsPermutation | util/bibleBooks.ts:28 | The alphabetical list has 66 entries and holds exactly the canonical books |
| JsText.PropertyOfDistinctKey | components/BibleExplorer.tsx:49-66 | In an object literal with distinct keys, such as `chapterCounts`, each key reads back its own entry |
| ChapterGrid.ChapterButtons | components/BibleExplorer.tsx:70 | One button per chapter of the book's count, in increasing order |
| ChapterGrid.ChapterButtonsRange | components/BibleExplorer.tsx:66-70 | The grid offers chapter c exactly when 1 <= c <= count, and offers nothing for a name not in the table |
| ChapterGrid.TableFollowsBookList | components/BibleExplorer.tsx:49-64 | The count table has 66 entries, keyed by the canonical book names in canonical order, each with a positive count |
| ChapterGrid.EveryBookHasChapters | components/BibleExplorer.tsx:49-66 | Every canonical book's grid count is its table entry and is positive |
| BibleExplorer.StripMarkers | components/BibleExplorer.tsx:207 | The global removal of `[digits]` never lengthens the text |
| BibleExplorer.StripWithoutBracket | components/BibleExplorer.tsx:207 | Text without `[` passes marker removal unchanged |
| BibleExplorer.VerseWithoutBracket | components/BibleExplorer.tsx:205-208 | A verse whose text has no `[` is shown only trimmed |
| BibleExplorer.StripLeadingMarker | components/BibleExplorer.tsx:207 | A marker at the front is removed whole, whatever follows |
| BibleExplorer.StripKeepsPlainPrefix | components/BibleExplorer.tsx:207 | Text in which no marker starts is kept unchanged in front of whatever the replace makes of the rest |
| BibleExplorer.StripAfterPlainText | components/BibleExplorer.tsx:207 | Text in which no marker starts, possibly holding a `[` of its own, is kept and the marker after it removed, so "In the beginning[1] God" shows as "In the beginning God" |
| BibleExplorer.BracketFreeHasNoMarker | components/BibleExplorer.tsx:207 | No marker starts inside text without `[`, whatever follows it |
| BibleExplorer.SinglePass | components/BibleExplorer.tsx:207 | The replace is a single left-to-right pass: "[[1]2]" becomes "[2]" |
| BibleExplorer.AcceptSelection | components/BibleExplorer.tsx:183-184 | A selection is accepted exactly when its trimmed form is longer than five UTF-16 code units, and the trimmed form is what is kept |
| BibleExplorer.TextSelectionMeaning | components/BibleExplorer.tsx:182-188 | An accepted selection sets the selected text and clears its commentary; any other selection changes nothing |
| BibleExplorer.ToggleSortTwice | components/BibleExplorer.tsx:217 | Toggling the sort order changes only the order, and toggling twice restores it |
| BibleExplorer.SelectBookLeavesNothingStale | components/BibleExplorer.tsx:109-117 | Selecting a book clears the chapter, its data, the chapter analysis, the chat, the selection and its analysis, and keeps order, translation and error |
| BibleExplorer.SelectChapterMeaning | components/BibleExplorer.tsx:119-140 | Without a book nothing changes; otherwise the chapter is set, derived state is cleared, exactly one of data and error is set, and loading ends |
| BibleExplorer.ChangeTranslationMeaning | components/BibleExplorer.tsx:142-148 | The translation is always set; the chapter is refetched in it exactly when a book and a chapter are selected, and otherwise nothing else changes |
| BibleExplorer.AnalysisMeaning | components/BibleExplorer.tsx:150-180 | Summary and commentary do nothing without chapter data; a success sets the analysis (commentary with its perspective) and a chat bound to the chapter; a failure sets an error and no chat; loading ends |
| BibleExplorer.SelectionCommentaryMeaning | components/BibleExplorer.tsx:190-203 | Nothing happens without a selection and chapter data; otherwise the selected text is sent with the chapter's reference, a success records the perspective, and the chapter analysis and chat are untouched |
| BibleExplorer.Explorer.ToggleSortOrder | components/BibleExplorer.tsx:217 | The new state is the old one with the order toggled |
| BibleExplorer.Explorer.HandleSelectBook | components/BibleExplorer.tsx:109-117 | The new state is the book-selection transition of the old state |
| BibleExplorer.Explorer.HandleSelectChapter | components/BibleExplorer.tsx:119-140 | Requests the selected book's chapter in the given translation, or nothing without a book; the new state is the chapter-selection transition |
| BibleExplorer.Explorer.HandleTranslationChange | components/BibleExplorer.tsx:142-148 | Requests the current chapter in the new translation exactly when one is on screen; the new state is the translation-change transition |
| BibleExplorer.Explorer.HandleSummarize | components/BibleExplorer.tsx:150-164 | Requests a summary of the chapter on screen, or nothing without one; the new state is the summary transition |
| BibleExplorer.Explorer.HandleChapterCommentary | components/BibleExplorer.tsx:166-180 | Requests a commentary from the given perspective, or nothing without chapter data; the new state is the commentary transition |
| BibleExplorer.Explorer.HandleTextSelection | components/BibleExplorer.tsx:182-188 | The new state is the selection transition of the old state |
| BibleExplorer.Explorer.HandleSelectionCommentary | components/BibleExplorer.tsx:190-203 | Requests a commentary on the selection, or nothing without one; the new state is the selection-commentary transition |
| ChatInterface.SubmitMeaning | components/ChatInterface.tsx:25-33 | A blank or all-white-space input, or a pending reply, makes submitting do nothing; otherwise the untrimmed input is appended as the user's message and sent, the input is cleared, and a reply is pending |
| ChatInterface.SettleMeaning | components/ChatInterface.tsx:34-42 | A settled reply appends one assistant message, either the reply or "Sorry, I encountered an error. Please try again.", and ends loading |
| ChatInterface.TranscriptOnlyGrows | components/ChatInterface.tsx:28-39 | Over any sequence of typing, submits and replies, the old transcript is a prefix of the new one: messages are only appended |
| ChatInterface.StepBalanced | components/ChatInterface.tsx:23-43 | Each event keeps the invariant that user messages outnumber assistant messages by one while a reply is pending, and by none otherwise |
| ChatInterface.RunBalanced | components/ChatInterface.tsx:23-43 | From a balanced panel, any sequence of events leaves at most one question unanswered |
| ChatInterface.ChatView.HandleInput | components/ChatInterface.tsx:71-74 | Typing sets the input unless a reply is pending, when the input is disabled |
| ChatInterface.ChatView.HandleSubmit | components/ChatInterface.tsx:23-33 | The new state and the message sent are those of the submit transition |
| ChatInterface.ChatView.HandleReply | components/ChatInterface.tsx:32-42 | The new state is the settle transition for the reply or the error |
| Prompts.ScriptureChat.SendMessage | services/secureApiService.ts:123-124 | A chat message becomes a chat request with the chat's own reference and chapter text and the message unchanged |
| Prompts.CreateScriptureChat | services/secureApiService.ts:121-134 | The chat remembers the reference and chapter text it was created for |
| Prompts.ChatHasNoMemory | services/secureApiService.ts:121-124 | After any earlier messages, a message's request is the chat request for that message alone, the same as if it were the first |
| Prompts.CommentaryStartsWithPerspective | services/secureApiService.ts:96-110 | Both commentary prompts begin with the perspective's instruction followed by a blank line |
| Prompts.SelectionIsQuoted | services/secureApiService.ts:110 | The selection commentary prompt ends with the excerpt, unchanged, in double quotes |
| Prompts.InsightTopicRecoverable | services/secureApiService.ts:45-49 | The insight topic stands, unchanged and in double quotes, right after the fixed opening |
| Prompts.SummaryCarriesPassage | services/secureApiService.ts:80 | The summary prompt names the passage after its opening and ends with the chapter text |
| SecureApi.RequestBody | services/secureApiService.ts:13-25 | The request body carries the prompt and type unchanged, the budget given when there is one, and 2000 tokens when none is given |
| SecureApi.CallSecureApi | services/secureApiService.ts:13-42 | A non-ok status fails with "HTTP error! status: N"; `success: false` fails with its error or "API request failed"; a success returns the response or "No response generated.", never empty; transport and parse errors pass through |
| SecureApi.HttpStatusRecoverable | services/secureApiService.ts:27-29 | The status of a refused reply can be read back from the error message |
| SecureApi.ChatPromptCarries | services/secureApiService.ts:124 | The chat prompt names the passage right after its opening, holds the chapter text right after the fixed context sentence, and ends with the question, each unchanged, with nothing else in it but the fixed texts |
| SecureApi.RequestTable | services/secureApiService.ts:52-127 | Each intent's type tag and budget: insight 2778, summary 1000, chapter commentary 2000, selection commentary 1500, chat 1500 |
| SecureApi.DispatchMeaning | services/secureApiService.ts:79-133 | A request succeeds exactly when the reply decodes as a success, with that text; all failures of a summary, commentary or chat request are the same error |
| SecureApi.InsightKeepsCause | services/secureApiService.ts:70-76 | An insight failure is "Theological Insight Error: " followed by the underlying message |
| SecureApi.FetchGroundedResponse | services/secureApiService.ts:44-77 | The insight answer comes with the two fixed sources, and its failure is the dispatcher's error |
| AzureOpenAI.GetEnvVar | services/azureOpenAIService.ts:5-10 | The variable's value when the environment exists and the value is non-empty; the fallback otherwise |
| AzureOpenAI.BaseUrl | services/azureOpenAIService.ts:27 | The base URL is the endpoint, then "openai/deployments/", then the deployment |
| AzureOpenAI.OpenAIClient.constructor | services/azureOpenAIService.ts:25-32 | The client holds the key, the base URL and the fixed API version |
| AzureOpenAI.CompletionFor | services/azureOpenAIService.ts:47-66 | Every completion names the deployment as its model and uses top-p 0.95 |
| AzureOpenAI.CompletionTable | services/azureOpenAIService.ts:38-236 | Each intent's system message, budget and temperature: insight 2778 at 0.7, summary 1000 at 0.3, commentaries 2000 and 1500 at 0.6, chat 1500 at 0.7 |
| AzureOpenAI.Fallback | services/azureOpenAIService.ts:68 | Each intent's fallback text for an empty completion is non-empty |
| AzureOpenAI.AnswerMeaning | services/azureOpenAIService.ts:96-127 | An answer is the completion's non-empty content or the intent's fallback text, and any failure carries the intent's fixed message |
| AzureOpenAI.MissingKeyFails | services/azureOpenAIService.ts:19-22 | Without an API key every request fails, whatever the SDK would do; the insight error names the missing key |
| AzureOpenAI.FailuresCollapse | services/azureOpenAIService.ts:123-126 | Every failure of a summary, commentary or chat request is the same error, whatever its cause |
| AzureOpenAI.ChatCarriesPassage | services/azureOpenAIService.ts:211-219 | The chat system message names the passage and ends with its text; the user message is passed through unchanged |
| AzureOpenAI.AzureOpenAIService.constructor | services/azureOpenAIService.ts:12-17 | Endpoint, deployment and key are read with their fallbacks, and no client exists yet |
| AzureOpenAI.AzureOpenAIService.GetOpenAIClient | services/azureOpenAIService.ts:19-36 | Fails with the configuration error on an empty key, before building anything; otherwise reuses an existing client, or builds one with the key and base URL and keeps it |
| AzureOpenAI.AzureOpenAIService.Complete | services/azureOpenAIService.ts:96-127 | The answer is the intent's answer given the client outcome and the completion; the intent's completion is sent exactly when a client was obtained; the client is built at most once |
| AzureOpenAI.AzureOpenAIService.FetchGroundedResponse | services/azureOpenAIService.ts:38-94 | The insight answer comes with the two fixed sources; failures and the client singleton behave as in any other request |
| ChatGateway.EnvOr | api/chat/index.js:34-36 | A variable's value when it is set and non-empty, the default otherwise |
| ChatGateway.TypeSettings | api/chat/index.js:73-96 | Settings exist exactly for the four known request types |
| ChatGateway.TypeTable | api/chat/index.js:73-91 | The type table: theological insight uses the theologian message at 0.7, chapter summary the scholar message at 0.3, commentary the commentator message at 0.6, chat 0.7 |
| ChatGateway.ErrorStatus | api/chat/index.js:128-144 | An upstream status of 403, 401 or 404 is passed on; otherwise the quota code gives 429 and any other failure 500; the message is the one fixed for that status |
| ChatGateway.MethodComesFirst | api/chat/index.js:17-27 | OPTIONS gets 204 with no body; any other method but POST gets 405 "Method Not Allowed"; nothing else is examined first |
| ChatGateway.ConfigurationComesSecond | api/chat/index.js:44-53 | A POST without both key and endpoint gets 500 and the configuration error, whatever its body, and nothing is sent |
| ChatGateway.FieldsComeThird | api/chat/index.js:55-61 | Once configured, a body without a non-empty prompt and type gets 400 before the SDK or the type is examined |
| ChatGateway.UnknownTypeRefused | api/chat/index.js:92-96 | An unknown type gets 400 'Invalid "type" parameter.' and nothing is sent upstream |
| ChatGateway.SentExactlyWhenValid | api/chat/index.js:55-114 | A completion is sent exactly when every check passes, with the prompt unchanged, the budget asked for (2000 by default) and the type's temperature |
| ChatGateway.SuccessMeaning | api/chat/index.js:116-152 | Status 200 means exactly a completed upstream call, with a non-empty response and the usage; every other status but 204 carries a failure body |
| ChatGateway.StatusBeforeCode | api/chat/index.js:132-144 | With an HTTP status of 403, 401 or 404 the code plays no part; with any other status the quota code gives 429 with the quota message and any other code 500 with the generic message |
| ChatGateway.Context.Handle | api/chat/index.js:3-154 | `context.res` ends with the CORS headers and the decision chain's status and body on every path, and at most the chain's completion is sent |
| BibleService.FetchChapter | services/bibleService.ts:13-14 | The URL requested is the chapter URL for the book, chapter and translation |
| BibleService.ChapterUrlRoundTrip | services/bibleService.ts:14 | Book, chapter and translation can be read back from the URL, so different requests never share one |
| BibleService.FetchChapterMeaning | services/bibleService.ts:16-32 | A success returns the parsed body unchanged; every Error failure is rethrown with exactly one "Could not load chapter. " prefix; a refusal adds "Failed to fetch chapter: " |
| BibleService.RefusalMeaning | services/bibleService.ts:20-22 | A refusal reports the API's own non-empty error when the body has one, and "HTTP error! status: N" otherwise |
| BibleService.RethrownMeaning | services/bibleService.ts:28-31 | Every rethrown failure is an Error, and one with the fixed prefix unless it is the unknown-error text |
| UriComponent.Encode | services/bibleService.ts:14 | Encoded text holds only unreserved characters and `%`, so none of the delimiters `+` or `?` |
| UriComponent.DecodeEncode | services/bibleService.ts:14 | Percent-decoding the encoding gives back the original string |
| UriComponent.EncodeInjective | services/bibleService.ts:14 | Different strings have different encodings |
| UriComponent.EncodeUnescapedIdentity | services/bibleService.ts:14 | A string of unreserved characters is encoded as itself |
| JsText.OrElse | services/secureApiService.ts:37 | `a || b` on strings is `b`, or `a` when `a` is present and non-empty |
| JsText.RemoveWhitespace | services/offlineBibleService.ts:121 | Deleting white space never lengthens the text and leaves none behind |
| JsText.TrimSlice | components/BibleExplorer.tsx:207 | `trim` returns the slice of the text left after removing white space, and only white space, from both ends |
| JsText.TrimEmptyIff | components/ChatInterface.tsx:25 | `trim` yields the empty string exactly when the text is all white space |
| JsText.JoinLength | services/offlineBibleService.ts:155 | A join is as long as its parts plus one separator between each pair of neighbours |
| JsText.JoinAppend | services/offlineBibleService.ts:155 | Joining one more part appends the separator and that part, so the join holds its parts in order with one separator between neighbours |
| JsText.IntToStringRoundTrip | services/secureApiService.ts:28 | Printed integers read back unchanged |
| JsText.Utf16Length | components/BibleExplorer.tsx:184 | A string's `length` counts UTF-16 code units, between one and two per character |
| EndToEnd.PromptNonEmpty | services/secureApiService.ts:44-127 | Every prompt the client builds is non-empty |
| EndToEnd.GatewayAcceptsEveryIntent | api/chat/index.js:55-114 | A configured gateway forwards every request the client sends: the prompt unchanged, the client's budget, and the same temperature and top-p (and, except for chat, system message) as the direct Azure client |
| EndToEnd.SettingsAgree | api/chat/index.js:73-91 | The gateway knows every type tag the client sends, and uses for it the temperature and (except for chat) the system message the direct client uses for that intent |
| EndToEnd.DispatchersAgree | services/azureOpenAIService.ts:38-236 | The two dispatchers give every intent the same budget and, except for chat, the same prompt |
| EndToEnd.ClientReadsGateway | services/secureApiService.ts:27-37 | The client returns the gateway's answer text on 200 and reports any other POST outcome by its status alone |

## Left out

- Network, SDK and storage calls: `fetch`, the OpenAI SDK's `chat.completions.create`, and `localStorage`. Their outcomes are parameters, and JSON serialisation is taken to preserve the stored record.
- The SDK's client constructor. Whether it throws is a parameter, in the direct client and in the gateway. The gateway passes its endpoint, key and API version (`AZURE_OPENAI_API_VERSION`, default "2025-01-01-preview") only to that constructor, so they are not represented.
- CompletionRequest: temperature and top-p are integers in tenths and hundredths, because the source only passes fixed fractions along.
- CompletionRequest: the frequency and presence penalties, `stop` and `stream` are constant in the source and not represented.
- BibleBooks.SortByName: `localeCompare` is locale-dependent, so the model uses any total preorder on names. The model proves the result sorted and a permutation; stability is by construction, not stated.
- JsText.ToLower and JsText.ToUpper: cover only the ASCII letters, not full Unicode case mapping.
- ChatGateway.Fields: `prompt` and `type` are modelled as strings or absent. Other JSON value types (numbers, objects) in those fields are not modelled.
- OfflineBible.ChapterFromData: chapter numbers, a JavaScript `number`, are modelled as integers, because every caller passes a whole number from the chapter grid. A fractional chapter such as 1.5 would pass the range check and then fail with "Chapter 1.5 not found in Genesis"; that path is not modelled.
- React's asynchronous state updates and batching. Each handler is a sequential step; the chat's submit is split at its one `await`.
- The explorer's `useCallback` closure over `selectedBook` is not modelled.
- Lone UTF-16 surrogates cannot occur in the model's strings, so the `URIError` that `encodeURIComponent` throws on them is not modelled.
- JSX rendering, styling, scrolling, and the perspective labels shown on buttons.
- Console logging throughout.
- `bibleDataCache[translation]` has the same inherited-property issue as the alias index, for names such as "toString". The memo is modelled as a plain map, because callers pass only the offered translations.
- App routing, the login form, the navbar, the response display, the source list, the error alert, the alternative app shells, the build configuration and the health-probe function: no stateable logic.

## Findings

| source | as written | input that shows it | evidently intended | confidence | as-written member | corrected member |
|---|---|---|---|---|---|---|
| services/offlineBibleService.ts:128-131 | `ABBREV_TO_BOOK[normalizedName]` is a plain-object lookup. Names inherited from `Object.prototype` give a truthy value, `BOOK_MAPPINGS[...]` is then undefined, and `abbrevs.includes` throws a TypeError | `findBookByName([{abbrev: "gn", chapters: []}], "__proto__")` (also "constructor") | only the table's own entries count, and an unknown name yields null | not executed | OfflineBible.FindBookByNameAsWritten, OfflineBible.ProtoNameThrows | OfflineBible.FindBookByName |
