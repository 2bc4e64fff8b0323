# JobSearchChat core in Dafny

JobSearchChat is an iOS chat app. A local language model answers the
user's prompts and may call one tool, `get_todays_jobs`, which searches
the job board dev.bg for the postings of a category on a given day. This
project models the app's core and proves properties of it:

- **The chat session** (`chat_view_model.dfy`, module `ChatViewModel`).
  - The class `ChatViewModel` keeps the prompt buffer, the transcript of
    `Message` objects, the generating flag, the completion info, the error
    and the tool-turn counter in fields.
  - `Generate` submits the trimmed prompt with an empty assistant
    placeholder.
  - It then streams replies into the last message and runs the tool at
    most `MaxToolTurns` (2) times per prompt.
  - The loop is proved equal to `RunGenerationLoop` and `HandleToolCall`.
    These are pure functions that call each other the way the app's
    `runGenerationLoop` and `handleToolCall` do. The loop's properties are
    proved about those functions.
  - `Clear` is proved against `ClearSpec`.
- **Messages** (`messages.dfy`). A message is a reference object with a
  fixed role (user, assistant, system or tool) and mutable text, created by
  four factories.
- **The generation interface** (`generation.dfy`).
  - Stream events carry an optional text chunk, optional completion info
    and an optional tool call.
  - The backend is a function from the transcript to a stream, or to a
    failure to open one.
- **The job search** (`job_search_service.dfy`).
  - Helpers: the category's URL slug, Bulgarian posting dates, the
    requested day, and the listing filter.
  - The crawl over at most 15 pages is `FetchJobs`, proved equal to
    `Crawl`.
  - The text report is `Search`, proved equal to `SearchSpec`.
  - The site is a function from a page URL to the page's job elements, to
    a body that is not UTF-8, or to a failed request.
- **The tool** (`job_search_tool.dfy`). Its schema, the defaulting of a
  missing or empty date to "today", and the hand-over to the search.
- **Supporting definitions.**
  - `strings.dfy` models trimming, lowercasing, splitting, decimal
    spelling and `Int(_:)`.
  - `dates.dfy` models calendar days as year/month/day triples, the
    lenient component arithmetic, and the `yyyy-MM-dd` format.
  - `wrappers.dfy` provides `Option` and `Result`.

The current day is a parameter (`now`); the backend, the tool and the site
are functions passed in.

## Model

| member | source | states |
|---|---|---|
| Strings.Trim | JobSearchChat/Services/JobSearchService.swift:29 | the trimmed string is no longer than the input, and when not empty neither starts nor ends with whitespace |
| Strings.TrimPadded | JobSearchChat/Services/JobSearchService.swift:157 | whitespace around a word with non-whitespace ends trims away to exactly that word |
| Strings.TrimEmptyIff | JobSearchChat/ViewModels/ChatViewModel.swift:53-54 | a string trims to nothing exactly when every character is whitespace |
| Strings.TrimSpec | JobSearchChat/Services/JobSearchService.swift:29 | the trimmed form is a slice of the input with whitespace-only margins, and neither end of it is whitespace |
| Strings.TrimIdempotent | JobSearchChat/Services/JobSearchService.swift:157 | trimming a trimmed string changes nothing |
| Strings.Lower | JobSearchChat/Services/JobSearchService.swift:118 | lowercasing keeps the length and lowercases each character on its own |
| Strings.LowerIdempotent | JobSearchChat/Services/JobSearchService.swift:118 | lowercasing twice is lowercasing once, and lowercasing never creates or removes a space |
| Strings.Split | JobSearchChat/Services/JobSearchService.swift:142 | splitting on a separator yields only non-empty pieces without the separator |
| Strings.SplitJoin | JobSearchChat/Services/JobSearchService.swift:142 | splitting two space-free words joined by a run of spaces gives exactly those two words (empty pieces are dropped) |
| Strings.ParseInt | JobSearchChat/Services/JobSearchService.swift:144 | a parsed integer lies in the 64-bit range |
| Strings.ParseIntOfNat | JobSearchChat/Services/JobSearchService.swift:144 | `Int` of the decimal spelling of a non-negative 64-bit number is that number |
| Dates.NextDay | JobSearchChat/Services/JobSearchService.swift:162 | the day after an actual calendar day is an actual calendar day |
| Dates.PreviousDay | JobSearchChat/Services/JobSearchService.swift:162 | the day before an actual calendar day is an actual calendar day |
| Dates.PreviousNextInverse | JobSearchChat/Services/JobSearchService.swift:162 | going back a day and forward a day are inverse |
| Dates.Normalize | JobSearchChat/Services/JobSearchService.swift:149-153 | any day number in any month names an actual calendar day, rolling over into neighbouring months |
| Dates.NormalizeSucc | JobSearchChat/Services/JobSearchService.swift:149-153 | with lenient day numbers, day n + 1 of a month is the day after day n, for every n, across month and year ends |
| Dates.ParseIsoDate | JobSearchChat/Services/JobSearchService.swift:166-171 | a `yyyy-MM-dd` parse yields only an actual calendar day with a four-digit year |
| Dates.FormatDate | JobSearchChat/Services/JobSearchService.swift:175-180 | a day with a four-digit year renders as ten characters, digits apart from the dashes at positions 4 and 7 |
| Dates.FormatParseRoundTrip | JobSearchChat/Services/JobSearchService.swift:175-180 | parsing the `yyyy-MM-dd` rendering of a day gives that day back |
| Messages.Message.constructor | JobSearchChat/Models/Message.swift:10-15 | a new message has the given role and content |
| Messages.Message.User | JobSearchChat/Models/Message.swift:26-28 | a fresh message with role user and the content unchanged |
| Messages.Message.Assistant | JobSearchChat/Models/Message.swift:30-32 | a fresh message with role assistant and the content unchanged |
| Messages.Message.System | JobSearchChat/Models/Message.swift:34-36 | a fresh message with role system and the content unchanged |
| Messages.Message.Tool | JobSearchChat/Models/Message.swift:38-40 | a fresh message with role tool and the content unchanged |
| ChatViewModel.AppliedCount | JobSearchChat/ViewModels/ChatViewModel.swift:95-108 | the loop consumes a prefix of the stream: no event before its last carries a tool call, and it stops early only right after one that does |
| ChatViewModel.AppliedCountUnique | JobSearchChat/ViewModels/ChatViewModel.swift:104-107 | the consumed prefix is the only prefix with that stopping property |
| ChatViewModel.DetectedCallIsFirst | JobSearchChat/ViewModels/ChatViewModel.swift:104-107 | the loop reports a tool call exactly when some event carries one, and the call it reports is the first |
| ChatViewModel.LaterEventsIgnored | JobSearchChat/ViewModels/ChatViewModel.swift:104-107 | events after the first tool call never change the applied events or the reported call |
| ChatViewModel.NoToolCallAllApplied | JobSearchChat/ViewModels/ChatViewModel.swift:95-98 | a stream without tool calls is applied whole |
| ChatViewModel.InfoLastWriteWins | JobSearchChat/ViewModels/ChatViewModel.swift:100-102 | once an event reports completion info, the info before the stream no longer matters (overwritten, not accumulated) |
| ChatViewModel.AppendToLast | JobSearchChat/ViewModels/ChatViewModel.swift:96-97 | appending text to the last message keeps the transcript's length |
| ChatViewModel.DropPlaceholder | JobSearchChat/ViewModels/ChatViewModel.swift:122-124 | the transcript is unchanged, or it ended in an empty assistant message and loses exactly that message |
| ChatViewModel.DropPlaceholderRemovesEmpty | JobSearchChat/ViewModels/ChatViewModel.swift:122-124 | a trailing empty assistant message is always removed, and a transcript without one is left as it is |
| ChatViewModel.RunGenerationLoop | JobSearchChat/ViewModels/ChatViewModel.swift:86-113 | the loop never lowers the tool-turn counter and ends with it at most one past the limit |
| ChatViewModel.HandleToolCall | JobSearchChat/ViewModels/ChatViewModel.swift:115-131 | no contract of its own; its behaviour is stated by `HandleToolCallRan` and `HandleToolCallRefused` (one step), `HandleTurnBound` (turn bound) and `HandleKeepsHistory` (history kept) |
| ChatViewModel.HandleToolCallRan | JobSearchChat/ViewModels/ChatViewModel.swift:116-130 | below the limit the call is logged and the placeholder dropped; a tool that succeeds leads to a new generation from the transcript plus its result and a fresh placeholder; a tool that fails ends the loop with its error |
| ChatViewModel.HandleToolCallRefused | JobSearchChat/ViewModels/ChatViewModel.swift:116-119 | at the limit a tool call only counts the turn and appends "Tool call limit reached." |
| ChatViewModel.LoopTurnBound | JobSearchChat/ViewModels/ChatViewModel.swift:86-113 | the loop only raises the counter, to at most one past the limit; the tool runs once per counted turn up to the limit; ending past the limit means the last message is "Tool call limit reached." |
| ChatViewModel.HandleTurnBound | JobSearchChat/ViewModels/ChatViewModel.swift:115-131 | the same turn bound for `handleToolCall` |
| ChatViewModel.LoopKeepsHistory | JobSearchChat/ViewModels/ChatViewModel.swift:86-113 | the loop never changes a message before the last one it started with |
| ChatViewModel.HandleKeepsHistory | JobSearchChat/ViewModels/ChatViewModel.swift:115-131 | the same for `handleToolCall` |
| ChatViewModel.GenerateSpec | JobSearchChat/ViewModels/ChatViewModel.swift:47-84 | a blank prompt changes nothing; otherwise generation ends with the prompt cleared, not generating, and the counter at most one past the limit |
| ChatViewModel.GenerateNoopIff | JobSearchChat/ViewModels/ChatViewModel.swift:53-54 | `generate` leaves the whole session unchanged exactly when the prompt is empty or whitespace only |
| ChatViewModel.GenerateKeepsHistory | JobSearchChat/ViewModels/ChatViewModel.swift:56-61 | after a non-blank prompt the transcript starts with the old transcript and the trimmed prompt as a user message; generation is over and the prompt is empty |
| ChatViewModel.GenerateTurnBound | JobSearchChat/ViewModels/ChatViewModel.swift:115-120 | per prompt the tool runs at most twice, and a third request ends the loop with the limit message and no error |
| ChatViewModel.FailingToolStops | JobSearchChat/ViewModels/ChatViewModel.swift:122-126 | with a failing tool the loop runs it at most once, records its error and appends no message |
| ChatViewModel.FailingToolEndsLoop | JobSearchChat/ViewModels/ChatViewModel.swift:78-83 | with a failing tool, `generate` ends with the tool's error after at most one run, and adds at most the prompt and its placeholder to the transcript |
| ChatViewModel.ClearSpec | JobSearchChat/ViewModels/ChatViewModel.swift:133-148 | clearing always removes the error and never touches the generating flag, the counter or the tool log |
| ChatViewModel.ClearOptionsIndependent | JobSearchChat/ViewModels/ChatViewModel.swift:133-148 | clearing with two option sets in turn is clearing with their union; `.meta` makes the throughput 0; only `.chat` touches the transcript and only `.prompt` the prompt |
| ChatViewModel.ChatViewModel.constructor | JobSearchChat/ViewModels/ChatViewModel.swift:22-45 | a new session has an empty prompt, only the system prompt in the transcript, no info, no error and the counter at 0 |
| ChatViewModel.ChatViewModel.TokensPerSecond | JobSearchChat/ViewModels/ChatViewModel.swift:35-37 | the last reported throughput, or 0 when there is none |
| ChatViewModel.ChatViewModel.ResetChat | JobSearchChat/ViewModels/ChatViewModel.swift:138-139 | the transcript becomes a new system message alone |
| ChatViewModel.ChatViewModel.Clear | JobSearchChat/ViewModels/ChatViewModel.swift:133-148 | the new state is `ClearSpec` of the old state and the options |
| ChatViewModel.ChatViewModel.StreamInto | JobSearchChat/ViewModels/ChatViewModel.swift:95-108 | the last message's text grows by the applied events' chunks in order; the info is the last one reported; the returned call is the detected one |
| ChatViewModel.ChatViewModel.ConsumeStream | JobSearchChat/ViewModels/ChatViewModel.swift:89-108 | the same for the session's last message, with every other message unchanged |
| ChatViewModel.ChatViewModel.DropEmptyPlaceholder | JobSearchChat/ViewModels/ChatViewModel.swift:122-124 | the transcript becomes `DropPlaceholder` of the old one |
| ChatViewModel.ChatViewModel.AppendWithPlaceholder | JobSearchChat/ViewModels/ChatViewModel.swift:127-128 | the message and an empty assistant placeholder are appended, in that order |
| ChatViewModel.ChatViewModel.AppendLimitMessage | JobSearchChat/ViewModels/ChatViewModel.swift:117-119 | the assistant message "Tool call limit reached." is appended |
| ChatViewModel.ChatViewModel.RunTool | JobSearchChat/ViewModels/ChatViewModel.swift:122-128 | the placeholder is dropped; on success the tool's result and a placeholder are appended; on failure only the error is set |
| ChatViewModel.ChatViewModel.HandleCall | JobSearchChat/ViewModels/ChatViewModel.swift:115-131 | the counter grows; the new state is `HandleToolCall` of the old one, or continuing from it gives that result |
| ChatViewModel.ChatViewModel.Step | JobSearchChat/ViewModels/ChatViewModel.swift:86-113 | one stream and its tool call: the new state is `RunGenerationLoop` of the old one, or continuing from it gives that result |
| ChatViewModel.ChatViewModel.Submit | JobSearchChat/ViewModels/ChatViewModel.swift:53-61 | the state becomes `Submitted`: prompt and placeholder appended, counter and error reset, prompt empty, generating |
| ChatViewModel.ChatViewModel.RunLoop | JobSearchChat/ViewModels/ChatViewModel.swift:86-131 | the iterative loop ends in exactly the state `RunGenerationLoop` gives |
| ChatViewModel.ChatViewModel.Generate | JobSearchChat/ViewModels/ChatViewModel.swift:47-84 | the new state is `GenerateSpec` of the old one |
| ChatViewModel.ChatViewModel.MarkCancelled | JobSearchChat/ViewModels/ChatViewModel.swift:73-75 | "\n[Cancelled]" is appended to the last message's text |
| JobSearchService.CategoryParameter | JobSearchChat/Services/JobSearchService.swift:109-124 | the parameter never holds a space and is empty exactly when the category is |
| JobSearchService.CategoryParameterCaseInsensitive | JobSearchChat/Services/JobSearchService.swift:118 | categories that lowercase alike get the same parameter |
| JobSearchService.CategoryParameterFallback | JobSearchChat/Services/JobSearchService.swift:123 | for every category without a slug, the parameter has its length and is its lowercase form with every space, and only a space, turned into a dash |
| JobSearchService.CategoryParameterExamples | JobSearchChat/Services/JobSearchService.swift:110-123 | examples: "Data Science" gives "data-science" and "DevOps" gives "devops" |
| JobSearchService.CategoryParameterMapped | JobSearchChat/Services/JobSearchService.swift:110-121 | examples of the mapping in other letter cases: "Machine Learning" and "DATA" both give "data-science" |
| JobSearchService.MonthNumbersInRange | JobSearchChat/Services/JobSearchService.swift:127-140 | every month key maps into 1..12 |
| JobSearchService.MonthNamesNumbered | JobSearchChat/Services/JobSearchService.swift:127-140 | each of the twelve months has its name in the table |
| JobSearchService.ParseBgDate | JobSearchChat/Services/JobSearchService.swift:126-154 | a parsed posting date is an actual calendar day |
| JobSearchService.ParseBgDateRoundTrip | JobSearchChat/Services/JobSearchService.swift:142-153 | "<day> <month name>" parses to that day of that month in the given year |
| JobSearchService.Keeps | JobSearchChat/Services/JobSearchService.swift:88-91 | an element is kept only for an actual calendar day; which elements are kept, and in what order they are listed, is stated by `SelectListsKept` and `SelectAppend` |
| JobSearchService.PostingYearIsCurrent | JobSearchChat/Services/JobSearchService.swift:150 | a posting printed as an in-month day number and a month name is never kept for a target day of another year than the current one |
| JobSearchService.ParseDate | JobSearchChat/Services/JobSearchService.swift:156-173 | the requested day is always an actual calendar day |
| JobSearchService.ParseFormattedDate | JobSearchChat/Services/JobSearchService.swift:156-180 | reading a `yyyy-MM-dd` rendering gives the day back, whatever the current day |
| JobSearchService.ParseDateKeywords | JobSearchChat/Services/JobSearchService.swift:157-163 | any word that lowercases to "today" or "yesterday", with any whitespace around it, gives the current day or the day before |
| JobSearchService.ParseDateUnrecognised | JobSearchChat/Services/JobSearchService.swift:165-172 | example: text that is neither keyword nor a date, "not-a-date", gives the current day |
| JobSearchService.ToListing | JobSearchChat/Services/JobSearchService.swift:94-101 | a listing always has a title, a company and a link starting with "http", carries the element's date text, and keeps the element's title, company and absolute link when present |
| JobSearchService.Select | JobSearchChat/Services/JobSearchService.swift:88-101 | at most one listing per element; every listing has a title, a company, a link starting with "http", and a date on the target day |
| JobSearchService.SelectListsKept | JobSearchChat/Services/JobSearchService.swift:88-101 | a listing is selected exactly when it is the listing of a kept element of the page |
| JobSearchService.SelectAppend | JobSearchChat/Services/JobSearchService.swift:88 | selection goes element by element, keeping element order |
| JobSearchService.ListingLinkNeverEmpty | JobSearchChat/Services/JobSearchService.swift:94 | a listing's link is never empty |
| JobSearchService.RequestsShape | JobSearchChat/Services/JobSearchService.swift:59-82 | pages are requested consecutively from page 1, at most 15; every request but the last got a non-UTF-8 body or a page with job elements |
| JobSearchService.RequestsStopEarly | JobSearchChat/Services/JobSearchService.swift:59-82 | the crawl requests every page up to 15 unless its last request failed or got a page without job elements |
| JobSearchService.CrawlGathers | JobSearchChat/Services/JobSearchService.swift:59-104 | the crawl fails exactly when its last request failed, with that error; otherwise it lists each requested page's selection in page order |
| JobSearchService.Crawl | JobSearchChat/Services/JobSearchService.swift:59-104 | every listing the crawl returns is well formed |
| JobSearchService.FetchSpec | JobSearchChat/Services/JobSearchService.swift:55-107 | an empty category lists nothing; every listing found is well formed |
| JobSearchService.CollectPage | JobSearchChat/Services/JobSearchService.swift:88-102 | the inner loop yields `Select` of the page's elements |
| JobSearchService.FetchJobs | JobSearchChat/Services/JobSearchService.swift:55-107 | the page loop yields `FetchSpec`: nothing for an empty parameter, else the crawl |
| JobSearchService.Report | JobSearchChat/Services/JobSearchService.swift:41-50 | the report loop yields the numbered blocks of `ReportBody` |
| JobSearchService.SearchSpec | JobSearchChat/Services/JobSearchService.swift:28-53 | a blank category gets the missing-category answer; every answer has some text |
| JobSearchService.Search | JobSearchChat/Services/JobSearchService.swift:28-53 | the answer is `SearchSpec` |
| JobSearchService.SearchCategoryTrimmed | JobSearchChat/Services/JobSearchService.swift:29-32 | surrounding whitespace in the category changes nothing; the missing-category answer comes exactly for a blank category |
| JobSearchTool.SchemaShape | JobSearchChat/Tools/JobSearchTool.swift:15-27 | the tool is "get_todays_jobs" with a required `category` and an optional `date` |
| JobSearchTool.EffectiveDate | JobSearchChat/Tools/JobSearchTool.swift:30 | the date searched is never empty, and is either the given date or "today" |
| JobSearchTool.EffectiveDateCases | JobSearchChat/Tools/JobSearchTool.swift:30 | a missing or empty date becomes "today"; a non-empty one is passed on unchanged, without trimming |
| JobSearchTool.Call | JobSearchChat/Tools/JobSearchTool.swift:29-32 | a blank category is answered with the missing-category message; every output has some text |
| JobSearchTool.MissingDateIsToday | JobSearchChat/Tools/JobSearchTool.swift:30-31 | leaving the date out, giving it empty, or giving "today" all give the same answer |
| JobSearchTool.CategoryPassedThrough | JobSearchChat/Tools/JobSearchTool.swift:31 | the category reaches the search untrimmed; the answer is the missing-category message exactly for a blank category |
| JobSearchTool.DecodeEncode | JobSearchChat/Tools/JobSearchTool.swift:4-7 | encoded arguments decode back to the input; decoding succeeds exactly when every required parameter is present |
| JobSearchTool.Execute | JobSearchChat/ViewModels/ChatViewModel.swift:126 | a call without a category fails without a search; a tool message is never empty |
| JobSearchTool.ExecuteSearches | JobSearchChat/Tools/JobSearchTool.swift:29-33 | a call carrying an input yields the search's report as the tool's text, and a failed search fails the tool |

## Left out

- The cancellation race is left out. This covers `Task`, the cancellation
  handler, cancelling and replacing `generateTask`, and the main-actor hop
  (ChatViewModel.swift:48-51, 63-77, 140). These are about concurrency.
  Only the marker the handler appends is modelled (`MarkCancelled`).
- `isGenerating` is false after `generate` on every path. The model has no
  asynchronous interleaving, so that is the only state observed after
  `Generate`.
- MLXService.swift is not part of this model: model loading, GPU cache,
  tokenisation and generation. The backend is a function from the
  transcript to a stream of events, or to an error opening it.
- The selected model and the download progress are not modelled.
- URLSession and SwiftSoup are replaced by the `Site` function, from a page
  URL to the selected job elements. The User-Agent header, HTML parsing and
  the markup selectors are not modelled.
- A markup error is treated like a failed request (`Failed`).
- The `invalidURL` error is not modelled: every URL the app builds from
  the slug is taken to be valid.
- A message's `id` and `timestamp` are left out: they come from a random
  generator and the clock.
- `GenerateCompletionInfo` is reduced to its throughput, a `real` standing
  for `Double`. Floating-point rounding is not modelled.
- Lowercasing is modelled for ASCII letters and the basic Cyrillic block
  only. Other scripts are left unchanged, with no Unicode case mapping
  beyond these.
- Trimming uses Foundation's `whitespacesAndNewlines`, the Unicode
  White_Space characters, written out one by one in `IsWhitespace`.
- JobSearchService.ParseDate: `DateFormatter`'s lenient parsing is
  replaced by a strict `yyyy-MM-dd` parse. Inputs that the formatter would
  still accept in a looser form fall back to the current day here.
- Time zones and times of day are not modelled: days are compared as
  calendar triples.
- JobSearchService.ParseBgDate: the case where `Calendar.date(from:)`
  returns nil for extreme day numbers is not modelled. Every day number
  that `Int` accepts rolls over into a valid day.
- `Dates.FormatDate` renders negative years with a minus sign. How the
  formatter renders years before the common era is not modelled.
- The current year is a parameter: the year of `now`.
- JobSearchTool.DecodeInput: JSON decoding of the tool's arguments is done
  by the model library.
  - It is modelled on string-valued arguments: a call must carry
    `category` and may carry `date`.
  - The decoder's error text is not modelled.
  - A call whose tool name does not match is not modelled. Any such check
    lives in the model library's `execute(with:)`.
- `ClearOption` is an option set over raw bits. It is modelled as a set of
  its three named options; other raw values are not modelled.
- The link line of the report is printed only when the link is not empty.
  Every listing's link is made absolute, so it is never empty
  (`ListingLinkNeverEmpty`), and the check never skips the line.
- A posting's year is taken to be the current year. This is the app's
  stated behaviour, so the model keeps it. `PostingYearIsCurrent` states
  the consequence for a posting printed as an in-month day number and a
  month name. A search for a day in another year, such as "yesterday" on
  the first of January, never finds such a posting.
- JobSearchService.PostingYearIsCurrent: a day number outside its month
  rolls over into the neighbouring month, and so can reach another year.
  For example, "0 ян." read in 2025 is 31 December 2024. Such
  postings are kept for that day, and the lemma says nothing about them.
- Strings are compared code point by code point. Swift compares them by
  canonical equivalence over grapheme clusters. This applies to `==`,
  dictionary lookup, `split(separator:)` and `hasPrefix`. So a month name
  written with a decomposed letter (such as "й" as "и" plus a combining
  breve) is found in the app's table but not in `MonthNumbers`.
