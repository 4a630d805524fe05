# Toyota Stellar Finance: a Dafny model of the app's logic

Toyota Stellar Finance is a React single-page app. It sends a user's
financial profile to a hosted Gemini model and gets back suggested Toyota
vehicles with Finance and Lease plans. It renders them and offers a
streaming chat assistant. The repository has two variants:

- the **nested** application under `toyota-stellar-finance/`, where plans
  sit inside each vehicle and the term can be changed;
- the older **flat** application at the top level, which only has a submit.

Little of the code computes anything: the financing formulas exist only as
prompt text. This project models the parts that are logic:

| module (file) | what it models |
|---|---|
| `Wrappers` (wrappers.dfy) | `Option` and `Result`. |
| `Strings` (strings.dfy) | The JavaScript string built-ins the app relies on: `indexOf` and `lastIndexOf`, `substring` with its argument clamping and swapping, `trim` over the ECMAScript white-space set, `replace(/c/g, …)` for one character, and `${n}` for integral numbers below 10^21 in magnitude. |
| `Types` (types.dfy) | The records of the nested application and its `TERM_OPTIONS`. |
| `ResultsDisplay` (results_display.dfy) | The results view. The cost breakdown is sorted stably by position in a per-plan-type table. Each line's emphasis is classified. The Finance and Lease plans are looked up. The selected vehicle button and term button are highlighted. |
| `ChatMarkdown` (chat_markdown.dfy) | `simpleMarkdownToHtml`, pass by pass. It is proved equal to an independent one-pass reference. That reference is proved safe (no line feed, every `<` and `>` inside an inserted tag) and decodable (a decoder recovers the input). |
| `Chatbot` (chatbot.dfy) | The nested app's chat panel as a class. A send appends the user message and a loading placeholder. A loop fills the placeholder from the streamed chunks. Any failure replaces the last message with an error bubble. |
| `GeminiService` (gemini_service.dfy) | The plan service. The code-fence extraction is `trim`, then `indexOf`, `lastIndexOf` and `substring`. The two prompts are built from their exact template text, with the profile fields embedded. Errors are rewrapped. Both service calls are functions of the SDK reply and of `JSON.parse`, which are passed in as parameters. |
| `App` (app.dfy) | The nested app's top-level state as a class. `handleFormSubmit` resets and records the outcome. `handleTermChange` recalculates the selected vehicle's plans and splices them into the response by name. |
| `FlatChatbot` (flat_chatbot.dfy) | The flat chat panel. The bot message is appended only once the stream is obtained, and errors are appended after it. Rendering is line feeds to `<br />`. |
| `FlatApp` (flat_app.dfy) | The flat app: its records and its submit-only state machine. |

Every awaited call is atomic in the model. The handler methods take what
the call settles to (`outcome`, `reply`) as a parameter, and the service
functions take the SDK call and `JSON.parse` as function parameters. Money
amounts are whole dollars (`int`) and the APR is a `real`.

Behaviour of the code that the model keeps, as the code has it:

- The splice in `handleTermChange` replaces every model named like the selection
  by `{...selectedVehicle, paymentPlans}`. That is the selected vehicle's own
  fields, not each model's.
- The error banner is guarded by `error &&`, so an `Error` whose message is
  empty sets an error but shows no banner.
- In the nested chat, a stream that ends without a chunk leaves the
  placeholder. The placeholder keeps its typing indicator after loading
  ends (see `Chatbot.EmptyStreamKeepsPlaceholder`).
- A reply whose only fence is the opening one is passed to `JSON.parse` as the
  seven characters of that fence. JavaScript's `substring` swaps its
  arguments, so the extraction yields the fence itself.
- Both service calls share one extraction function, `GeminiService.ParsableText`,
  so they give the same text for the same reply.

## Model

| member | source | states |
|---|---|---|
| Strings.IndexOf | toyota-stellar-finance/services/geminiService.ts:127 | -1 exactly when the pattern occurs nowhere; otherwise the result is an occurrence and no earlier one exists |
| Strings.LastIndexOf | toyota-stellar-finance/services/geminiService.ts:128 | -1 exactly when the pattern occurs nowhere; otherwise the result is an occurrence and no later one exists |
| Strings.SubstringSymmetric | toyota-stellar-finance/services/geminiService.ts:132 | `substring` gives the same text with its two arguments swapped |
| Strings.SubstringInRange | toyota-stellar-finance/services/geminiService.ts:132 | with in-range ordered arguments, `substring` is the slice between them |
| Strings.SubstringContained | toyota-stellar-finance/services/geminiService.ts:132 | whatever its arguments, `substring` returns a piece of the text it was called on |
| Strings.Trim | toyota-stellar-finance/services/geminiService.ts:126 | the result is a slice of the input that neither starts nor ends with white space, and everything cut off is white space |
| Strings.TrimNoOp | toyota-stellar-finance/services/geminiService.ts:126 | a text with no white space at either end is returned unchanged |
| Strings.TrimEmptyIff | toyota-stellar-finance/components/Chatbot.tsx:68 | trimming gives the empty string exactly when every character is white space |
| Strings.IntToString | toyota-stellar-finance/services/geminiService.ts:96-99 | an integer (of magnitude below 10^21, where JavaScript still prints plain digits) renders as a non-empty string of digits, led by `-` exactly when it is negative |
| Strings.IntToStringInjective | toyota-stellar-finance/services/geminiService.ts:96-99 | different numbers render as different strings |
| Strings.ParseNatToString | toyota-stellar-finance/services/geminiService.ts:96-99 | reading the digits back gives the number rendered |
| Strings.ReplaceCharLength | Chatbot.tsx:112 | the replaced text grows by the replacement's extra length once per occurrence |
| ResultsDisplay.TablesDistinct | toyota-stellar-finance/components/ResultsDisplay.tsx:35-36 | neither order table lists a name twice |
| ResultsDisplay.IndexOfName | toyota-stellar-finance/components/ResultsDisplay.tsx:40 | `indexOf` on a table: -1 exactly when the name is not listed, otherwise its first position |
| ResultsDisplay.IndexOfDistinct | toyota-stellar-finance/components/ResultsDisplay.tsx:35-40 | in a table without repetitions an entry's rank is its position |
| ResultsDisplay.SortBy | toyota-stellar-finance/components/ResultsDisplay.tsx:39-41 | the sorted copy is a permutation of the items with non-decreasing keys |
| ResultsDisplay.SortStable | toyota-stellar-finance/components/ResultsDisplay.tsx:39-41 | items with equal keys keep their original relative order |
| ResultsDisplay.SortIdempotent | toyota-stellar-finance/components/ResultsDisplay.tsx:39-41 | sorting the sorted breakdown again returns it unchanged |
| ResultsDisplay.SortedBreakdown | toyota-stellar-finance/components/ResultsDisplay.tsx:35-41 | the listed breakdown is a permutation of the plan's items ordered by rank in the Finance table for 'Finance' plans and the lease table for every other type |
| ResultsDisplay.UnknownItemsFirst | toyota-stellar-finance/components/ResultsDisplay.tsx:39-41 | every item the table does not list comes before every listed item, and unlisted items keep their order |
| ResultsDisplay.RecognisedInTableOrder | toyota-stellar-finance/components/ResultsDisplay.tsx:35-41 | an item named by an earlier table entry comes before one named by a later entry |
| ResultsDisplay.Classify | toyota-stellar-finance/components/ResultsDisplay.tsx:101-116 | a line is a final total exactly when named 'Total Cost' or 'Total Lease Cost', a total component exactly for the other three component names, otherwise regular |
| ResultsDisplay.StylesTellKindsApart | toyota-stellar-finance/components/ResultsDisplay.tsx:104-116 | lines of different kinds (`RowClasses`, `ValueClasses`) get different line classes and different amount classes |
| ResultsDisplay.FinalTotalsAreComponents | toyota-stellar-finance/components/ResultsDisplay.tsx:26-32 | both final totals are also total components, so the test order gives final-total styling precedence |
| ResultsDisplay.FindPlan | toyota-stellar-finance/components/ResultsDisplay.tsx:133-134 | None exactly when no plan has the type; otherwise the first plan of that type |
| ResultsDisplay.FinancePlan | toyota-stellar-finance/components/ResultsDisplay.tsx:133 | the finance card shows a plan of the vehicle whose type is finance, and shows nothing exactly when no plan is of that type |
| ResultsDisplay.LeasePlan | toyota-stellar-finance/components/ResultsDisplay.tsx:134 | the same for the lease card and the lease type |
| ResultsDisplay.VehicleHighlights | toyota-stellar-finance/components/ResultsDisplay.tsx:175 | some vehicle button is highlighted exactly when a listed vehicle bears the selected name, each one exactly when its name is that name; with distinct names no two buttons are highlighted |
| ResultsDisplay.ExactlyOneVehicleHighlighted | toyota-stellar-finance/components/ResultsDisplay.tsx:170-176 | with distinct names the selected vehicle's button is the only highlighted one |
| ResultsDisplay.TermHighlights | toyota-stellar-finance/components/ResultsDisplay.tsx:186-193 | some term button is highlighted exactly when the current term is one of the offered options, each one exactly when its option equals the term; never two at once |
| ResultsDisplay.TermHighlightUnique | toyota-stellar-finance/components/ResultsDisplay.tsx:186-193 | at most one term button is highlighted, none for a term outside the options |
| ChatMarkdown.CloseAt | toyota-stellar-finance/components/Chatbot.tsx:21 | the non-greedy match ends at the first `**` that no line terminator precedes, and there is none when no such `**` exists |
| ChatMarkdown.BoldSplit | toyota-stellar-finance/components/Chatbot.tsx:21 | a match splits the text into `**`, a group without line terminators, `**` and the rest |
| ChatMarkdown.BoldOfEscape | toyota-stellar-finance/components/Chatbot.tsx:21 | the bold pass `Bold`, run over escaped text, wraps each non-greedy `**` pair of the raw text in `<strong>` tags around its escaped group and escapes everything else, as the one-pass reference does |
| ChatMarkdown.MarkdownToHtml | toyota-stellar-finance/components/Chatbot.tsx:12-26 | the output contains no line feed |
| ChatMarkdown.MarkdownOfEmpty | toyota-stellar-finance/components/Chatbot.tsx:13 | the empty text converts to the empty string |
| ChatMarkdown.EscapeHtmlIsEach | toyota-stellar-finance/components/Chatbot.tsx:15-18 | the three chained escapes equal escaping each character once, so nothing is escaped twice |
| ChatMarkdown.EscapeHtmlAppend | toyota-stellar-finance/components/Chatbot.tsx:15-18 | the escaping passes `EscapeHtml` work character by character: escaping joined texts is joining their escapes |
| ChatMarkdown.MarkdownIsReference | toyota-stellar-finance/components/Chatbot.tsx:12-26 | the five passes equal a one-pass reference conversion |
| ChatMarkdown.NewlinesOfBoldRef | toyota-stellar-finance/components/Chatbot.tsx:23 | after the bold pass, each line feed becomes exactly one `<br />` |
| ChatMarkdown.MarkdownAnglesInTags | toyota-stellar-finance/components/Chatbot.tsx:15-23 | every `<` and `>` of the output belongs to an inserted `<strong>`, `</strong>` or `<br />` |
| ChatMarkdown.MarkdownRoundTrip | toyota-stellar-finance/components/Chatbot.tsx:15-23 | decoding entities, tags and breaks recovers the input exactly |
| ChatMarkdown.MarkdownInjective | toyota-stellar-finance/components/Chatbot.tsx:12-26 | different inputs convert to different HTML |
| ChatMarkdown.MarkdownOfPlain | toyota-stellar-finance/components/Chatbot.tsx:15-23 | a text without `*`, `&`, `<`, `>` or line terminators is returned unchanged |
| Chatbot.BlankIffTrimEmpty | toyota-stellar-finance/components/Chatbot.tsx:68 | the send guard's blank test is exactly `!input.trim()` |
| Chatbot.SendAddsTwo | toyota-stellar-finance/components/Chatbot.tsx:66-113 | the list a send leaves (`SendResult`) keeps the earlier messages and adds exactly two, the user's message and then a bot message |
| Chatbot.StreamingIsPrefixMonotone | toyota-stellar-finance/components/Chatbot.tsx:82-101 | in the list while chunks arrive (`StreamingList`) the earlier messages stay, and the bot text after k chunks is a prefix of its text after any later chunk |
| Chatbot.FirstChunkClearsLoading | toyota-stellar-finance/components/Chatbot.tsx:85-100 | the last message is a loading placeholder until the first chunk and settled from then on |
| Chatbot.FailureReplacesLast | toyota-stellar-finance/components/Chatbot.tsx:103-112 | on any failure the list has the streaming list's length, its earlier messages, and the error bubble last |
| Chatbot.EmptyStreamKeepsPlaceholder | toyota-stellar-finance/components/Chatbot.tsx:71-101 | a stream that ends without chunks leaves the loading placeholder last |
| Chatbot.CompletedStreamHoldsReply | toyota-stellar-finance/components/Chatbot.tsx:82-101 | a completed non-empty stream ends with a settled bot message holding all chunks concatenated |
| Chatbot.RenderBubble | toyota-stellar-finance/components/Chatbot.tsx:142-146 | a loading message shows the typing indicator, any other shows its converted text |
| Chatbot.Chatbot.constructor | toyota-stellar-finance/components/Chatbot.tsx:29-33 | closed, no messages, empty input, not loading, no session |
| Chatbot.Chatbot.InitializeChat | toyota-stellar-finance/components/Chatbot.tsx:44-58 | with an API key, a session for gemini-2.5-flash and the messages reset to the greeting; without one, nothing changes |
| Chatbot.Chatbot.OpenEffect | toyota-stellar-finance/components/Chatbot.tsx:60-64 | initialises only when the panel is open and no session exists |
| Chatbot.Chatbot.Toggle | toyota-stellar-finance/components/Chatbot.tsx:118 | flips the panel, then initialises as the effect does |
| Chatbot.Chatbot.Close | toyota-stellar-finance/components/Chatbot.tsx:132 | closes the panel and changes nothing else |
| Chatbot.Chatbot.SetInput | toyota-stellar-finance/components/Chatbot.tsx:157 | sets the input and changes nothing else |
| Chatbot.Chatbot.SendMessage | toyota-stellar-finance/components/Chatbot.tsx:66-113 | a blank input or a send in flight changes nothing; otherwise the list becomes the send's result, the input is cleared and loading ends |
| GeminiService.UnfencedIsTrimmed | toyota-stellar-finance/services/geminiService.ts:126-133 | a reply without backquotes is passed on trimmed and otherwise unchanged |
| GeminiService.StripFence | toyota-stellar-finance/services/geminiService.ts:127-133 | the extracted JSON text is a piece of the text it was taken from |
| GeminiService.ParsableText | toyota-stellar-finance/services/geminiService.ts:126-133 | the text handed to `JSON.parse` is a piece of the model's reply |
| GeminiService.NoFenceKeepsText | toyota-stellar-finance/services/geminiService.ts:127-133 | without an opening fence, or without any fence, the trimmed text is kept whole |
| GeminiService.FenceInsideOpening | toyota-stellar-finance/services/geminiService.ts:127-128 | an opening fence holds a plain fence at its own position and at no other position inside it |
| GeminiService.ClosingFenceAfterOpening | toyota-stellar-finance/services/geminiService.ts:127-131 | when an opening fence exists the last fence exists too, and it is either the opening one or after it |
| GeminiService.FencedBodyBetween | toyota-stellar-finance/services/geminiService.ts:131-132 | when the last fence lies after the opening one, the result is exactly the text between them |
| GeminiService.LoneOpeningFence | toyota-stellar-finance/services/geminiService.ts:127-132 | when the only fence is the opening one, the swapped `substring` yields that opening fence |
| GeminiService.StripFenceRoundTrip | toyota-stellar-finance/services/geminiService.ts:127-133 | a body wrapped in an opening and a closing fence is extracted exactly |
| GeminiService.FencedRoundTrip | toyota-stellar-finance/services/geminiService.ts:126-133 | the same after trimming, for a fenced reply |
| GeminiService.RethrownInjective | toyota-stellar-finance/services/geminiService.ts:139-142 | the rewrapped message determines what was thrown when prefix and fallback start differently |
| GeminiService.PlanFailureInjective | toyota-stellar-finance/services/geminiService.ts:139-142 | distinct failures of the plan call give distinct messages |
| GeminiService.RecalcFailureInjective | toyota-stellar-finance/services/geminiService.ts:196-199 | distinct failures of the recalculation give distinct messages |
| GeminiService.FailuresTellOperationsApart | toyota-stellar-finance/services/geminiService.ts:139-142 | no plan-call failure message equals a recalculation failure message |
| GeminiService.ProfileHoldsLines | toyota-stellar-finance/services/geminiService.ts:96-100 | the profile block holds the income, credit, down payment, term and lifestyle lines |
| GeminiService.RequestHoldsFormulas | toyota-stellar-finance/services/geminiService.ts:102-111 | the request block holds the formulas for the profile's term |
| GeminiService.FormulasMentionTerm | toyota-stellar-finance/services/geminiService.ts:62-88 | the formula instructions (`FormulasPrompt`) mention the term they are built for |
| GeminiService.PlanPromptEmbedsProfile | toyota-stellar-finance/services/geminiService.ts:92-114 | the plan prompt (`PlanPrompt`) holds all five profile lines and the formulas for the term |
| GeminiService.NumberLineSplit | toyota-stellar-finance/services/geminiService.ts:96-99 | a line with a number followed by a non-digit determines the number and what follows |
| GeminiService.CreditLineSplit | toyota-stellar-finance/services/geminiService.ts:97 | the credit line determines the credit band and what follows |
| GeminiService.LifestyleLineSplit | toyota-stellar-finance/services/geminiService.ts:100 | the lifestyle line determines the lifestyle and what follows |
| GeminiService.ProfileLinesSplit | toyota-stellar-finance/services/geminiService.ts:96-100 | the profile block determines the whole profile and what follows |
| GeminiService.PlanPromptInjective | toyota-stellar-finance/services/geminiService.ts:92-114 | different profiles give different plan prompts, so each field is embedded recoverably |
| GeminiService.VehicleSentenceHolds | toyota-stellar-finance/services/geminiService.ts:149 | the opening sentence holds the vehicle's name and MSRP |
| GeminiService.ProfileHeadingAfterMsrp | toyota-stellar-finance/services/geminiService.ts:148-151 | in the recalculation prompt the MSRP sentence ends in one line break, followed by a blank line and the profile heading |
| GeminiService.RecalcProfileHolds | toyota-stellar-finance/services/geminiService.ts:151-154 | the profile block holds the income, credit and down payment lines |
| GeminiService.RecalcRequestHoldsTerm | toyota-stellar-finance/services/geminiService.ts:156-161 | the request block holds the new-term line |
| GeminiService.RecalcPromptHoldsParts | toyota-stellar-finance/services/geminiService.ts:148-164 | the recalculation prompt (`RecalcPrompt`) holds its opening sentence, profile block and request block |
| GeminiService.RecalcPromptEmbedsRequest | toyota-stellar-finance/services/geminiService.ts:148-164 | the recalculation prompt holds the vehicle name, MSRP, income, credit, down payment and term |
| GeminiService.RecalcPromptIgnoresLifestyle | toyota-stellar-finance/services/geminiService.ts:148-164 | changing only the lifestyle leaves the recalculation prompt unchanged |
| GeminiService.GenerateFinancePlan | toyota-stellar-finance/services/geminiService.ts:91-144 | succeeds exactly when the model call and the parse of the extracted text succeed, with the parsed value; a failed model call fails with an `Error` wrapping exactly the error it threw, and a failed parse with an `Error` wrapping exactly the parse error (`Failed to get financial plan from Gemini: ` and its message, or the fixed fallback for a non-`Error`) |
| GeminiService.RecalculatePlans | toyota-stellar-finance/services/geminiService.ts:147-201 | the same for the recalculation prompt: a failed model call or parse fails with an `Error` wrapping exactly the error caught, in the recalculation's messages |
| App.ReplaceByName | toyota-stellar-finance/App.tsx:60-64 | same length; each model named like the selection becomes the replacement, every other model is unchanged |
| App.ReplaceByNameKeepsNames | toyota-stellar-finance/App.tsx:55-64 | the splice keeps the list of names in order |
| App.ReplaceByNameAbsent | toyota-stellar-finance/App.tsx:60-64 | with no model of that name the list is unchanged |
| App.ReplaceByNameIdempotent | toyota-stellar-finance/App.tsx:60-64 | splicing the same replacement twice is splicing once |
| App.ReplaceSelected | toyota-stellar-finance/App.tsx:55-64 | at the selected vehicle's position, the result is the selection with the new plans, keeping name, MSRP and reasoning |
| App.SubmitShowsServiceMessage | toyota-stellar-finance/App.tsx:31-36 | a plan-service failure is always an `Error`, so the catch block's text (`ErrorText`: an `Error`'s message, anything else the fallback) is that non-empty message and never the fallback |
| App.TermChangeShowsServiceMessage | toyota-stellar-finance/App.tsx:74-79 | the same for a recalculation failure: `ErrorText` gives the service's own non-empty message, never the recalculation fallback |
| App.AppState.constructor | toyota-stellar-finance/App.tsx:10-16 | nothing loaded, nothing selected, no error, term 60 |
| App.AppState.HandleFormSubmit | toyota-stellar-finance/App.tsx:18-40 | stores input and term; on success the response and the first model as selection, with no error; on failure no response or selection, and the error text; loading ends; exactly one of response and error is set; the error banner shows exactly on a failure whose text is not empty |
| App.AppState.SelectVehicle | toyota-stellar-finance/App.tsx:132 | selects the vehicle and changes nothing else |
| App.AppState.HandleTermChange | toyota-stellar-finance/App.tsx:42-83 | a no-op unless input, selection and response are all set; otherwise it updates term and input; on success it splices the new plans by name, keeping the tips, and the selection gets the new plans; on failure only the error changes; the selection stays in the list; after a call that ran, the error banner shows exactly on a failure whose text is not empty |
| FlatChatbot.SendAppends | Chatbot.tsx:49-83 | the list a send leaves (`SendResult`) keeps the earlier messages and appends the user message; then one error when no stream was obtained, otherwise the reply and, if the stream failed, one error after it |
| FlatChatbot.StreamingIsPrefixMonotone | Chatbot.tsx:65-75 | in the list while chunks arrive (`StreamingList`) the earlier messages stay and the bot text grows by prefixes |
| FlatChatbot.StreamFailureKeepsPartial | Chatbot.tsx:68-79 | a stream failing after its chunks gives the completed list plus one error message |
| FlatChatbot.RenderText | Chatbot.tsx:112 | the HTML contains no line feed |
| FlatChatbot.RenderTextLength | Chatbot.tsx:112 | each line feed adds exactly the five extra characters of `<br />` |
| FlatChatbot.RenderTextPlain | Chatbot.tsx:112 | a text without line feeds renders unchanged, markup included: nothing is escaped |
| FlatChatbot.RenderTextAppend | Chatbot.tsx:112 | rendering two joined texts is joining their renders |
| FlatChatbot.NoIndicatorBeforeStream | Chatbot.tsx:113 | while the stream is awaited the user's message is last, so no typing indicator shows |
| FlatChatbot.IndicatorWhileStreaming | Chatbot.tsx:113 | while chunks arrive the indicator shows under the bot message and nowhere else |
| FlatChatbot.FlatChatbot.constructor | Chatbot.tsx:12-16 | closed, no messages, empty input, not loading, no session |
| FlatChatbot.FlatChatbot.InitializeChat | Chatbot.tsx:27-41 | with an API key, a session and the greeting alone; without one, nothing changes |
| FlatChatbot.FlatChatbot.OpenEffect | Chatbot.tsx:43-47 | initialises only when the panel is open and no session exists |
| FlatChatbot.FlatChatbot.Toggle | Chatbot.tsx:88 | flips the panel, then initialises as the effect does |
| FlatChatbot.FlatChatbot.Close | Chatbot.tsx:102 | closes the panel and changes nothing else |
| FlatChatbot.FlatChatbot.SetInput | Chatbot.tsx:124 | sets the input and changes nothing else |
| FlatChatbot.FlatChatbot.SendMessage | Chatbot.tsx:49-83 | a blank input or a send in flight changes nothing; otherwise the list becomes the send's result, the input is cleared and loading ends |
| FlatApp.Settled | App.tsx:18-26 | exactly one of response and error; the response exactly on success |
| FlatApp.SettledRendering | App.tsx:15-29 | the results render exactly on success; the banner renders exactly on a failure whose text is not empty |
| FlatApp.FlatAppState.constructor | App.tsx:10-12 | not loading, no response, no error |
| FlatApp.FlatAppState.HandleFormSubmit | App.tsx:14-30 | loading ends; response and error are the settled view of the outcome, never both and never neither; the error banner shows exactly on a failure whose text is not empty |

## Left out

- The Gemini SDK (`generateContent`, `chats.create`, `sendMessageStream`),
  the response schemas and `JSON.parse`. These are foreign calls. They are
  parameters: functions handed to the service functions, and a
  `StreamReply` or `Result` handed to the handlers.
- The financing formulas in the prompt. They are natural-language
  instructions, and the app never computes them. The model keeps them as
  the exact text the prompt embeds.
- The system instruction of the chat session, and the `model` and
  `responseMimeType` settings of the service calls. Only a session's
  model name is kept.
- `formatCurrency` (`Intl.NumberFormat`), `toFixed` and `toLocaleString`.
  They involve floating point and locale formatting.
- React itself:
  - rendering, effects other than the open effect, `scrollIntoView`, CSS and
    animations, and `dangerouslySetInnerHTML` itself;
  - the scheduling of state updates. Each handler runs atomically and
    sequentially, and the UI's disabled buttons stand in for concurrency.
- The `console.error` logging in the catch blocks of the two service calls
  and of both chat panels. It is output only, and no state depends on it.
- `process.env.API_KEY` is only a boolean `apiKeyPresent` parameter.
- Strings.IntToString: renders integers only, always as a sign and plain
  digits. Money is modelled as whole dollars. JavaScript's rendering of
  non-integral numbers, and of `NaN` and infinities, is not modelled. For
  magnitudes of 10^21 and more JavaScript switches to exponent form
  (`${1e21}` is "1e+21"), and above 2^53 a number is a rounded double. The
  model's digits-only contract is therefore faithful only for
  |n| < 10^21, and exact integers only below 2^53. A negative zero cannot
  arise, because the model's numbers are integers; JavaScript renders it
  as "0", and so does the model for 0.
- Strings: characters are Dafny `char`s, not UTF-16 code units. Text with
  characters outside the Basic Multilingual Plane would have other
  lengths and indices.
- Parsed JSON with missing or null fields. In particular, the
  `response.suggestedModels &&` test in `handleFormSubmit` is modelled only
  for a present list. A chunk whose `text` is undefined (which JavaScript
  would append as the text "undefined") is also not modelled: chunks are
  strings.
- The in-place mutation `newMessages[last].text = botResponse` in both chat
  panels. It writes through to an object shared with the previous state
  array. The model updates a value sequence, so the aliasing is not
  captured.
- `FinanceFinder.tsx`, `components/ResultsDisplay.tsx` and
  `services/geminiService.ts` of the flat variant. They hold form widgets,
  markup without logic, and a prompt with a foreign call and no
  extraction.
- `types.ts` and `toyota-stellar-finance/types.ts` have no behaviour. They
  only supply the datatypes. The flat `UserInput` reuses the nested one,
  which has the same fields and enums.
