# Sydney: routing and memory of the trading assistant, in Dafny

Sydney is the chat assistant of a trading-journal web application. This
project models its routing and memory layer and proves properties about it:

- **Conversation memory** (`Conversation`, a `ConversationManager` class over a
  map of per-user contexts). It keeps two bounded FIFO lists per user: the
  last 20 messages and the last 15 used joke ids. It renders the recent log
  as `role: content` lines, detects the user's mood from their last three
  messages, and derives statistics and reply suggestions.
- **Joke selection** (`Jokes`). The fixed 12-joke catalog, `getRandomJoke`
  with its fallback to the whole catalog, `formatJoke` and
  `getJokeByDifficulty`.
- **Asset classification** (`MarketData`). `detectAssetType` and the coin id
  and display name derived from a symbol.
- **Regular expressions** (`Patterns`, with string helpers in `Text`). Every
  pattern the router and the chat panel use, written out as an explicit
  matcher. This includes the session-name capture with its lazy `(.+?)`.
- **Message routing** (`Router`). This covers:
  - the three request tests and their priority (joke, market data, session switch);
  - the joke, market-data and session-switch replies;
  - `sendChatMessage`, which records both turns in memory;
  - the greeting.
- **The `ai-chat` edge function** (`AiChat`). The trade statistics placed in
  the prompt, the prompt's conditional sections, the reply fallback, and the
  way every failure becomes a 500 response.
- **The chat panel** (`ChatUi`, a `ChatPanel` class). `handleSendMessage`
  with its client-side session-switch loop ahead of the router, the text
  shown for a trade screenshot analysis, and `clearChat`.
- **The screenshot drop zone** (`Upload`, a `DragDropUpload` class). File
  validation, the nested drag-enter/leave counter, the upload status and the
  reset.

Everything external becomes a parameter:
- the database lookup of a session by name;
- the market-data fetches;
- the backend call and the Gemini answer;
- the screenshot analysis;
- the random draws and the clock.

A random draw is a real in `[0, 1)`. The clock is an integer `now` in
milliseconds, or the hour, month and day for the greeting.

The code and the written description of the system disagree on forex
detection; this model follows the code. The description says that a
six-letter upper-case token such as `EURJPY` is classified as a forex pair.
In the code, the symbol comes from `\b([A-Z]{2,5})\b`, which can never
capture six letters, so `detectAssetType` never answers `forex`.
`MarketData.DetectAssetType` keeps the unreachable branch as written and
proves that it is unreachable.

## Model

| member | source | states |
|---|---|---|
| Jokes.Filter | src/services/jokeService.ts:98-101 | the filtered list holds exactly the catalog jokes that pass the test, and is no longer than the input |
| Jokes.PickIndex | src/services/jokeService.ts:109 | `Math.floor(random * n)` is a valid index into a non-empty list |
| Jokes.Candidates | src/services/jokeService.ts:98-107 | the list a joke is drawn from is never empty and holds only catalog jokes |
| Jokes.GetRandomJoke | src/services/jokeService.ts:97-111 | never null; always a catalog joke; an unused joke of the requested category whenever one exists |
| Jokes.FallbackIsWholeCatalog | src/services/jokeService.ts:104-107 | when no unused joke of the category is left, the draw is from the entire catalog |
| Jokes.CandidatesAreFresh | src/services/jokeService.ts:98-102 | when a fresh joke exists, every candidate is unused and in the category |
| Jokes.FormatJokeParts | src/services/jokeService.ts:113-115 | the rendering is the setup, a blank line and the punchline, and can be split back into those parts |
| Jokes.GetJokeByDifficulty | src/services/jokeService.ts:117-126 | null exactly when no unused joke of that difficulty exists; otherwise an unused joke of that difficulty |
| Jokes.CatalogIdsDistinct | src/services/jokeService.ts:9-94 | the catalog has 12 jokes with pairwise distinct ids |
| Jokes.CatalogCategories | src/services/jokeService.ts:9-94 | only `joke_4` is a crypto joke, and no joke is in the general category |
| Jokes.GeneralFallsBack | src/services/jokeService.ts:100-107 | a request for the general category always draws from the whole catalog |
| Jokes.CryptoWhileFresh | src/services/jokeService.ts:98-110 | while `joke_4` is unused, a crypto request always gets `joke_4` |
| Conversation.ContextOf | src/services/conversationService.ts:18-31 | a known user gets the stored context; a new user gets one with no messages, no used jokes and the current start time |
| Conversation.PushCapped | src/services/conversationService.ts:33-45 | push then `slice(-cap)`: the newest min(cap, n+1) entries of the old list plus the new one, in order, ending with the new entry |
| Conversation.Lines | src/services/conversationService.ts:50 | one `role: content` line per message, in order |
| Conversation.RecentWindow | src/services/conversationService.ts:49 | `slice(-count)`: the last `count` messages; a count of 0 keeps all of them; a negative count drops that many from the front |
| Conversation.RenderRecentEmpty | src/services/conversationService.ts:47-51 | an empty log renders as the empty string |
| Conversation.NewestMessageRendered | src/services/conversationService.ts:47-51 | the newest message's content always appears in the rendered recent log |
| Conversation.UserContentsConcat | src/services/conversationService.ts:93-94 | the user-message filter distributes over concatenation of logs |
| Conversation.LowerAll | src/services/conversationService.ts:96 | each recent user message is lower-cased, position by position |
| Conversation.MoodIgnoresAssistant | src/services/conversationService.ts:91-116 | appending an assistant message never changes the detected mood |
| Conversation.MoodReadsLastThreeUserMessages | src/services/conversationService.ts:93-98 | with three user messages in the newer part of the log, older messages do not affect the mood |
| Conversation.ExclamationWins | src/services/conversationService.ts:100-103 | a `!` in any of the last three user messages makes the mood excited, before every other indicator |
| Conversation.ExcitedExample | src/services/conversationService.ts:100-103 | a concrete log with "amazing!!" is read as excited |
| Conversation.FrustratedExample | src/services/conversationService.ts:100-108 | a concrete log "bad", with no excited marker, is read as frustrated |
| Conversation.CuriousExample | src/services/conversationService.ts:100-113 | a concrete log "why", with no excited or frustrated marker, is read as curious |
| Conversation.NeutralExample | src/services/conversationService.ts:100-115 | a concrete log "ok", with no marker at all, is read as neutral |
| Conversation.StatsOf | src/services/conversationService.ts:77-88 | message and joke counts are the list lengths; last activity is null iff there are no messages, else the newest timestamp; the duration is the floor of elapsed minutes |
| Conversation.MoodSuggestions | src/services/conversationService.ts:126-136 | two suggestions for each non-neutral mood, none for neutral |
| Conversation.MoodSuggestionsDistinct | src/services/conversationService.ts:126-146 | the mood lines never coincide with the long-chat or jokes lines |
| Conversation.Suggestions | src/services/conversationService.ts:119-149 | the long-chat line is present iff more than 10 messages; the jokes line iff more than 3 jokes; the count adds up |
| Conversation.ConversationManager.constructor | src/services/conversationService.ts:16 | the manager starts with no contexts |
| Conversation.ConversationManager.GetContext | src/services/conversationService.ts:18-31 | returns the stored or a fresh context and stores it; no other user's context changes |
| Conversation.ConversationManager.AddMessage | src/services/conversationService.ts:33-45 | the user's log becomes the capped push of the new message; at most 20 entries; other users untouched |
| Conversation.ConversationManager.GetRecentMessages | src/services/conversationService.ts:47-51 | returns the rendering of the last `count` messages; only creates the context if missing |
| Conversation.ConversationManager.MarkJokeUsed | src/services/conversationService.ts:53-61 | appends the id (duplicates kept) and keeps the newest 15; other users untouched |
| Conversation.ConversationManager.GetUsedJokes | src/services/conversationService.ts:63-65 | returns the user's used joke ids |
| Conversation.ConversationManager.ClearUsedJokes | src/services/conversationService.ts:67-70 | empties the used jokes and leaves the messages as they were |
| Conversation.ConversationManager.ClearContext | src/services/conversationService.ts:72-74 | removes the user's entry, so the next lookup yields a fresh context; other users untouched |
| Conversation.ConversationManager.GetConversationStats | src/services/conversationService.ts:77-88 | returns the statistics of the user's context at `now` |
| Conversation.ConversationManager.DetectUserMood | src/services/conversationService.ts:91-116 | returns the mood read from the user's log |
| Conversation.ConversationManager.GetResponseSuggestions | src/services/conversationService.ts:119-149 | returns the suggestions for the user's mood and statistics |
| MarketData.UpperRun | src/services/marketDataService.ts:166 | the maximal run of upper-case ASCII letters starting at a position |
| MarketData.FirstToken | src/services/marketDataService.ts:166-167 | the leftmost position where `\b[A-Z]{2,5}\b` matches, or none when it matches nowhere |
| MarketData.TokenText | src/services/marketDataService.ts:168 | the captured symbol has 2 to 5 upper-case letters and occurs in the query at the match |
| MarketData.DetectAssetType | src/services/marketDataService.ts:154-185 | never forex; the symbol is non-empty iff the type is known; the symbol is BTC, ETH or text of the query; crypto means a mapped symbol and stock means an unmapped 2-5 letter token |
| MarketData.BitcoinFirst | src/services/marketDataService.ts:158-160 | any query mentioning bitcoin or btc, in any case, is BTC crypto |
| MarketData.EthSubstring | src/services/marketDataService.ts:161-163 | otherwise any query containing `eth`, even inside a word such as "whether", is ETH crypto |
| MarketData.TokenDecides | src/services/marketDataService.ts:166-184 | otherwise the first token decides: a mapped token is crypto, any other is stock, no token is unknown |
| MarketData.ForexPairIsUnknown | src/services/marketDataService.ts:176-178 | "EURUSD rate" is classified unknown, not forex |
| MarketData.CoinId | src/services/marketDataService.ts:55 | the mapped id of the upper-cased symbol, else the lower-cased symbol |
| MarketData.CoinName | src/services/marketDataService.ts:75 | the coin id with its first character upper-cased and the rest unchanged |
| MarketData.DetectedCryptoIsMapped | src/services/marketDataService.ts:171-173 | every symbol classified as crypto resolves to a mapped coin id |
| Patterns.SameLineFromSpec | src/services/aiService.ts:129 | the scan for the second literal succeeds iff it occurs at or after the position with no line break in between |
| Patterns.FollowsSpec | src/services/aiService.ts:129-135 | `a.*b` under `/i` matches iff some occurrence of `a` is followed on the same line by an occurrence of `b` |
| Patterns.FollowsContainsBoth | src/services/aiService.ts:129-135 | a match of `a.*b` contains both literals |
| Patterns.LazyEnd | src/services/aiService.ts:200 | the lazy capture ends at the first point, on the same line, followed by whitespace and `session` |
| Patterns.CaptureEnd | src/services/aiService.ts:200 | the capture is non-empty and on one line; a lazy capture ends at the first `\s+session`; a greedy one runs to the end of the line |
| Patterns.Search | src/services/aiService.ts:200 | a reported position is one where the session pattern matches and no earlier one matches; when none is reported, the pattern matches nowhere |
| Patterns.MatchSpan | src/services/aiService.ts:200 | the captured span is non-empty, on one line, and followed by `\s+session` (or by the line end for `switch to`) |
| Patterns.CapturedName | src/services/aiService.ts:200-205 | a captured session name is non-empty and holds no line break |
| Patterns.CapturedNameInText | src/services/aiService.ts:200-205 | the captured name occurs in the message, followed by `\s+session` for the lazy patterns |
| Patterns.LazyNeedsSession | src/components/AI/ChatInterface.tsx:81-83 | without the word `session`, no lazy session pattern matches |
| Patterns.LazyCaptureIsShortest | src/services/aiService.ts:200 | no shorter capture from the same start is followed by `\s+session` |
| Patterns.LoadTheExample | src/services/aiService.ts:202 | "Load the BTC 5 Minute session" captures "BTC 5 Minute" |
| Patterns.PanelSwitchExample | src/components/AI/ChatInterface.tsx:82 | "switch to BTC 5 Minute" captures "BTC 5 Minute" |
| Router.JokeRequestCore | src/services/aiService.ts:70-82 | the seven joke patterns are equivalent to four: joke, funny, make me laugh, another one |
| Router.MarketRequestMentions | src/services/aiService.ts:127-142 | a market-data request always mentions a price, "how much is" or "quote for" |
| Router.RouteOf | src/services/aiService.ts:49-68 | the first test that holds on the lower-cased trimmed message wins, in the order joke, market, session; none gives no route |
| Router.RouteJokeFirst | src/services/aiService.ts:52-55 | any message containing "joke" goes to the joke handler, whatever else it asks |
| Router.JokeCategoryFor | src/services/aiService.ts:92-98 | crypto iff crypto or bitcoin is mentioned; else market iff market, bull or bear; else trading; never general |
| Router.ChosenJoke | src/services/aiService.ts:91-102 | the drawn joke is in the catalog, and is fresh and of the chosen category whenever such a joke exists |
| Router.JokeReplyShowsJoke | src/services/aiService.ts:107-121 | the reply contains the formatted joke and is never empty |
| Router.TypedJokeGetsPrefix | src/services/aiService.ts:108-112 | since the message is logged first, a typed "joke" request always gets a prefix: "good mood" iff another/more/again also appears, else "glad you enjoyed" |
| Router.CryptoRequestGetsCryptoJoke | src/services/aiService.ts:92-93 | a crypto joke request gets `joke_4` while it is unused |
| Router.BuildJokeReply | src/services/aiService.ts:107-121 | the `+=` construction yields prefix, joke and the occasional follow-up question |
| Router.HandleJokeRequest | src/services/aiService.ts:84-125 | replies with the drawn joke and its prefix, and marks exactly that joke used in the user's context |
| Router.ReadJokeContext | src/services/aiService.ts:85-86 | returns the user's used joke ids and the rendering of their last three messages; only creates the context if missing |
| Router.NoDataFor | src/services/aiService.ts:177-179 | the not-found reply names the symbol |
| Router.QuoteReply | src/services/aiService.ts:151-186 | a found quote is its formatted text followed by exactly the remark for its asset type; a missing one names the symbol; a failed fetch gets the fixed trouble reply; never empty |
| Router.MarketReply | src/services/aiService.ts:144-186 | an unknown asset gets the clarification text without a fetch; otherwise the reply for the fetch outcome |
| Router.BitcoinQuote | src/services/aiService.ts:144-160 | a message mentioning bitcoin is answered with the BTC quote, or a reply naming BTC when none is found |
| Router.SwitchedReply | src/services/aiService.ts:209 | the success reply names the session |
| Router.SessionNotFoundReply | src/services/aiService.ts:211 | the not-found reply names the session |
| Router.SessionSwitchReply | src/services/aiService.ts:199-213 | no captured name gives the help text; otherwise the reply names the session and says switched iff the lookup returns a truthy id |
| Router.NoSessionWordGetsHelp | src/services/aiService.ts:200-203 | a switch request without the word "session", e.g. "switch to BTC", gets the help text |
| Router.LoadTheSessionReply | src/services/aiService.ts:199-213 | "Load the BTC 5 Minute session" looks up "BTC 5 Minute" and reports the outcome |
| Router.RoutedReply | src/services/aiService.ts:49-68 | the reply of the route a message takes (joke, market or session) is never empty |
| Router.SessionReplyNonEmpty | src/services/aiService.ts:199-213 | every session-switch reply is non-empty |
| Router.UsedAfterRouting | src/services/aiService.ts:84-102 | only a joke turn changes the used-joke list: it ends with the drawn joke and stays within the cap |
| Router.JokeTurnRecordsFreshJoke | src/services/aiService.ts:91-102 | while a fresh joke of the chosen category exists, the recorded joke was unused and appears once in the list |
| Router.HandleSpecialQueries | src/services/aiService.ts:49-68 | replies iff a route applies, with exactly that route's reply to the user's context; only the joke route changes memory, by recording the drawn joke |
| Router.BackendReply | src/services/aiService.ts:40-44 | a backend error becomes an error with a non-empty message; a success passes the reply through |
| Router.AskBackend | src/services/aiService.ts:27-46 | posts the last 8 messages of the user's log; on success exactly the reply is logged, on error nothing changes and the error carries a non-empty message |
| Router.Answered | src/services/aiService.ts:19-46 | after a turn, tone, topics and start time are kept, the used jokes are those after routing, and the log gains the reply exactly when there is one |
| Router.Respond | src/services/aiService.ts:20-46 | a routed message gets exactly its route's reply to the user's context; any other gets the backend's answer to the last 8 messages; only the user's context changes: the reply is logged, the drawn joke recorded, the rest kept |
| Router.Logged | src/services/aiService.ts:19 | after logging, the user's log ends with the message and holds at most 20 entries |
| Router.LastTwo | src/services/aiService.ts:19-45 | after a reply is logged, the newest two entries are the user message and the reply |
| Router.SentContextIsUsed | src/services/aiService.ts:29-36 | the context sent to the backend is never empty, so the prompt uses it instead of "No previous conversation" |
| Router.BackendRequestHasNoLiveData | src/services/aiService.ts:31-38 | the client never sets `hasLiveData`, so the prompt never gets the live-data block |
| Router.SendChatMessage | src/services/aiService.ts:17-47 | logs the user message first; a routed message gets exactly its route's reply to the logged context and always succeeds; others get the backend's answer to the last 8 logged messages; the reply (if any) is logged, the drawn joke recorded, tone, topics and start time kept; other users untouched |
| Router.Greeting | src/services/aiService.ts:337-375 | one of four sentences, each made of holiday prefix, time greeting, optional name and ending |
| Router.GreetingOpening | src/services/aiService.ts:343-350 | on an ordinary day the greeting opens with morning before 12, afternoon before 17, else evening |
| Router.GreetingNamesUser | src/services/aiService.ts:366-372 | a given name appears in the greeting |
| AiChat.Wins | supabase/functions/ai-chat/index.ts:84 | the number of trades with positive P/L, at most the number of trades |
| AiChat.Losses | supabase/functions/ai-chat/index.ts:85 | the number of trades with negative P/L, at most the number of trades |
| AiChat.WinsAndLossesBounded | supabase/functions/ai-chat/index.ts:84-85 | wins plus losses never exceed the trades, with equality iff no trade breaks even |
| AiChat.WinRate | supabase/functions/ai-chat/index.ts:86 | 0 with no trades, otherwise wins/n·100, always within [0, 100] |
| AiChat.Summarize | supabase/functions/ai-chat/index.ts:77-86 | the counts are the list lengths (0 when absent); wins plus losses are bounded by the trades; no trades means zero profit, wins and win rate |
| AiChat.SummaryAppend | supabase/functions/ai-chat/index.ts:83-85 | one more trade adds its P/L to the total and shifts exactly the counter of its sign |
| AiChat.ConversationSection | supabase/functions/ai-chat/index.ts:101 | a non-empty context is quoted as given; an empty or absent one becomes exactly "No previous conversation" |
| AiChat.LiveSection | supabase/functions/ai-chat/index.ts:114-122 | with `hasLiveData` true the text starts with the live-data header and contains both the labelled original message and the labelled enriched message; otherwise it is empty |
| AiChat.ReplyText | supabase/functions/ai-chat/index.ts:187 | the first candidate's text when present and non-empty, else the fixed apology; never empty |
| AiChat.HandleChat | supabase/functions/ai-chat/index.ts:44-211 | status 500 with the fixed error iff the body is unreadable, a query fails, the Gemini fetch throws, is not ok or its answer is unreadable, naming that failure; otherwise exactly 200 with the reply text of Gemini's first candidate |
| AiChat.GeminiFailureDetails | supabase/functions/ai-chat/index.ts:180-184 | a failed Gemini call after both queries succeeded reports that call |
| AiChat.NoLiveDataWithoutFlag | supabase/functions/ai-chat/index.ts:114-122 | without the flag the prompt has no live-data block |
| ChatUi.OnlySwitchToWithoutSessionWord | src/components/AI/ChatInterface.tsx:80-84 | without the word "session" only the `switch to` pattern can trigger a switch |
| ChatUi.ShortcutNoneIff | src/components/AI/ChatInterface.tsx:86-105 | the loop switches nowhere iff no pattern captures a name that the lookup resolves while a callback exists |
| ChatUi.ShortcutIsFirstSwitch | src/components/AI/ChatInterface.tsx:86-105 | a switch comes from the first pattern, in the order load, switch to, open, whose name resolves, and carries that name and id |
| ChatUi.NoCallbackNoSwitch | src/components/AI/ChatInterface.tsx:92 | without an `onSessionSwitch` callback the panel never switches |
| ChatUi.PanelSwitchReply | src/components/AI/ChatInterface.tsx:97 | the switch message names the session |
| ChatUi.Render | src/components/AI/ChatInterface.tsx:158-163 | a field renders "Not detected" iff it is falsy (missing, empty or 0) or is that text itself |
| ChatUi.AppendBlocks | src/components/AI/ChatInterface.tsx:156-164 | the `forEach` appends every trade's block, in order |
| ChatUi.BuildAnalysisText | src/components/AI/ChatInterface.tsx:153-179 | the built text is the header with the trade blocks and the offer, or the tips when there are no trades |
| ChatUi.TradeBlocksContain | src/components/AI/ChatInterface.tsx:156-164 | every trade's block appears in the concatenated blocks |
| ChatUi.AnalysisShowsEveryTrade | src/components/AI/ChatInterface.tsx:153-166 | the analysis text shows the block of every extracted trade |
| ChatUi.ZeroProfitNotDetected | src/components/AI/ChatInterface.tsx:163 | a zero or missing P/L is shown as "Not detected" |
| ChatUi.BlockNumbered | src/components/AI/ChatInterface.tsx:157 | the block of the trade at index i opens with "**Trade i+1:**" |
| ChatUi.Forwarded | src/components/AI/ChatInterface.tsx:169-171 | a trade is forwarded iff there are trades and a callback, and it is the first one |
| ChatUi.ChatPanel.constructor | src/components/AI/ChatInterface.tsx:42-45 | an empty panel: no messages, empty input, not loading, no upload area |
| ChatUi.ChatPanel.SwitchShortcut | src/components/AI/ChatInterface.tsx:86-105 | reports the first resolved switch and appends exactly one switch message for it, or nothing |
| ChatUi.ChatPanel.Answer | src/components/AI/ChatInterface.tsx:78-133 | a switch leaves memory alone and skips the router; otherwise the router is asked once, its reply (or the apology on error) is appended, and memory and reply are exactly what `sendChatMessage` promises |
| ChatUi.ChatPanel.AskRouter | src/components/AI/ChatInterface.tsx:107-131 | appends one bubble, the router's reply or the apology when it threw; memory and reply are exactly what `sendChatMessage` promises (message logged, reply logged, joke recorded) |
| ChatUi.ChatPanel.ShowAnswer | src/components/AI/ChatInterface.tsx:114-132 | appends exactly the bubble for the outcome; input, loading and upload area unchanged |
| ChatUi.ChatPanel.HandleSendMessage | src/components/AI/ChatInterface.tsx:63-137 | blank input, no user or a send in progress changes nothing; otherwise the trimmed input is appended first, then one answer, the input is cleared and loading reset, and memory and reply are exactly what `sendChatMessage` promises |
| ChatUi.ChatPanel.HandleImageUpload | src/components/AI/ChatInterface.tsx:139-206 | appends the upload message and the analysis (or error) text, forwards the first trade, and resets loading and the upload area |
| ChatUi.ChatPanel.ClearChat | src/components/AI/ChatInterface.tsx:215-217 | the message list becomes empty; nothing else changes |
| Upload.ValidateFile | src/components/UI/DragDropUpload.tsx:28-38 | accepted iff an `image/` type within the byte limit; a non-image is reported before the size |
| Upload.ExactLimitAccepted | src/components/UI/DragDropUpload.tsx:33 | a file of exactly the limit is accepted and one byte more is rejected |
| Upload.TypeCheckedFirst | src/components/UI/DragDropUpload.tsx:29-31 | a non-image gets the type message whatever its size |
| Upload.TooLargeNamesLimit | src/components/UI/DragDropUpload.tsx:34 | the size message names the limit in MB |
| Upload.Step | src/components/UI/DragDropUpload.tsx:71-105 | enter counts up and highlights only with items; leave counts down and clears the highlight only at exactly 0; drop resets both |
| Upload.RunEnters | src/components/UI/DragDropUpload.tsx:71-78 | d enters carrying items raise the counter by d and highlight the zone |
| Upload.RunLeavesAbove | src/components/UI/DragDropUpload.tsx:80-87 | leaves that keep the counter above 0 keep the highlight |
| Upload.NestedDrag | src/components/UI/DragDropUpload.tsx:71-87 | after d nested enters and k leaves the counter is d-k, and the zone stays highlighted iff k < d |
| Upload.DragDropUpload.constructor | src/components/UI/DragDropUpload.tsx:15-26 | idle, no preview, name or error, counter 0, not highlighted |
| Upload.DragDropUpload.HandleFile | src/components/UI/DragDropUpload.tsx:40-69 | an invalid file shows its message with status error and is not uploaded; a valid one is named, previewed and uploaded, then uploading is over and the status is success iff the upload did not throw |
| Upload.DragDropUpload.DragEnter | src/components/UI/DragDropUpload.tsx:71-78 | the counter and highlight take one enter step; nothing else changes |
| Upload.DragDropUpload.DragLeave | src/components/UI/DragDropUpload.tsx:80-87 | the counter and highlight take one leave step; nothing else changes |
| Upload.DragDropUpload.HandleDrop | src/components/UI/DragDropUpload.tsx:94-105 | resets the counter and highlight and handles only the first dropped file; no file changes nothing else; an invalid file shows its message with status error and keeps name, preview and the uploading flag; a valid file is named and previewed, uploading ends, and the status is success with no error when the upload did not throw, otherwise error with the analysis message |
| Upload.DragDropUpload.HandleFileInput | src/components/UI/DragDropUpload.tsx:107-111 | handles only the first chosen file, with the same outcomes as a drop (a thrown upload leaves status error with the analysis message), and leaves the drag state alone |
| Upload.DragDropUpload.ClearUpload | src/components/UI/DragDropUpload.tsx:113-121 | back to idle with no preview, name or error, and an empty file input |

## Left out

- Network, database and model calls are not modelled. The market-data fetches, the Supabase queries and function invocations, `switchToSession`'s name search, and the Gemini request are each an input: `fetch`, `lookup`, `backend`, or the query results of `AiChat.HandleChat`.
- `analyzeTradeScreenshot` and its JSON parsing are not modelled. The panel receives the analysis outcome as an input.
- `generateSessionSummary` is not modelled. It is only a backend call.
- `formatPriceResponse` is not modelled. It is floating-point formatting through `toFixed`/`toLocaleString`, so a found quote is an already formatted text.
- `toFixed` in the prompt and the prompt's prose are not modelled, nor is the `JSON.stringify` of sessions and trades. The model keeps only the sections that depend on the request and the data.
- Profit and loss are exact reals, not IEEE doubles. Numeric screenshot fields are whole numbers.
- Case conversion is ASCII only. `toLowerCase`/`toUpperCase` on non-ASCII letters are not modelled, and the patterns carry `i` without `u`.
- Message ids, `Date` objects and `toLocaleTimeString` are not modelled. Timestamps are the integer `now`, and the greeting takes hour, month and day.
- The file reader's data URL is an input to `HandleFile`, and the preview is set at once rather than on the reader's `onload` callback.
- React state batching and the asynchronous interleaving of events are not modelled. Each handler runs to completion on the state it saw. Toasts, console logging, JSX, `handleDragOver`, `openFileDialog` and `handleKeyPress` are not modelled either.
- Router.HandleJokeRequest: the "all out of fresh jokes" reply is not modelled, because `getRandomJoke` never returns null and the branch cannot be reached.
- Upload.DragDropUpload.HandleFile: `maxSize` is a whole number of megabytes; a fractional limit is not modelled.
- ChatUi.ChatPanel.SwitchShortcut: the `sessionSwitched` flag and the `break` are modelled as the first switching pattern, found by a loop that returns early.
- The lock screen, the trade form and the trade list are not part of this model.
