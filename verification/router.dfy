/**
 * The message router of `aiService`: the keyword tests that decide whether a
 * chat message is answered locally (a joke, a market quote, a session switch)
 * or sent to the `ai-chat` function, the local answers themselves, the way
 * each turn is recorded in the conversation memory, and the greeting.
 *
 * Everything the service fetches is an input: the market-data fetch, the
 * session lookup and the call to the `ai-chat` function are functions passed
 * in, and the two `Math.random()` draws are the reals `roll` and `followRoll`
 * in `[0, 1)`.
 */
module Router {
  import opened Wrappers
  import opened Text
  import opened Patterns
  import opened Conversation
  import Jokes
  import MarketData
  import AiChat

  // ---------------------------------------------------------------------------
  // The three keyword tests
  // ---------------------------------------------------------------------------

  /** `isJokeRequest`: any of the seven joke patterns occurs. */
  predicate IsJokeRequest(message: string) {
    || ContainsCI(message, "tell me a joke")
    || ContainsCI(message, "joke")
    || ContainsCI(message, "funny")
    || ContainsCI(message, "make me laugh")
    || ContainsCI(message, "another one")
    || ContainsCI(message, "more joke")
    || ContainsCI(message, "that's funny")
  }

  /** Three of the seven patterns are redundant: each contains a shorter one. */
  lemma JokeRequestCore(message: string)
    ensures IsJokeRequest(message) <==>
              || ContainsCI(message, "joke")
              || ContainsCI(message, "funny")
              || ContainsCI(message, "make me laugh")
              || ContainsCI(message, "another one")
  {
    var n := Lower(message);
    if ContainsCI(message, "tell me a joke") {
      assert HasAt("tell me a joke", 10, "joke");
      ContainsAt("tell me a joke", 10, "joke");
      ContainsTransitive(n, "tell me a joke", "joke");
    }
    if ContainsCI(message, "more joke") {
      assert HasAt("more joke", 5, "joke");
      ContainsAt("more joke", 5, "joke");
      ContainsTransitive(n, "more joke", "joke");
    }
    if ContainsCI(message, "that's funny") {
      assert HasAt("that's funny", 7, "funny");
      ContainsAt("that's funny", 7, "funny");
      ContainsTransitive(n, "that's funny", "funny");
    }
  }

  /** `isMarketDataRequest`: `what'?s.*price`, `current.*price`, ..., `quote for`. */
  predicate IsMarketDataRequest(message: string) {
    || Follows(message, "whats", "price")
    || Follows(message, "what's", "price")
    || Follows(message, "current", "price")
    || ContainsCI(message, "price of")
    || ContainsCI(message, "how much is")
    || Follows(message, "bitcoin", "price")
    || Follows(message, "btc", "price")
    || Follows(message, "eth", "price")
    || ContainsCI(message, "stock price")
    || ContainsCI(message, "market price")
    || ContainsCI(message, "quote for")
  }

  /** A market-data request always asks about a price, "how much is" something, or a quote. */
  lemma MarketRequestMentions(message: string)
    requires IsMarketDataRequest(message)
    ensures ContainsCI(message, "price") || ContainsCI(message, "how much is") || ContainsCI(message, "quote for")
  {
    var n := Lower(message);
    if Follows(message, "whats", "price") {
      FollowsContainsBoth(message, "whats", "price");
    } else if Follows(message, "what's", "price") {
      FollowsContainsBoth(message, "what's", "price");
    } else if Follows(message, "current", "price") {
      FollowsContainsBoth(message, "current", "price");
    } else if Follows(message, "bitcoin", "price") {
      FollowsContainsBoth(message, "bitcoin", "price");
    } else if Follows(message, "btc", "price") {
      FollowsContainsBoth(message, "btc", "price");
    } else if Follows(message, "eth", "price") {
      FollowsContainsBoth(message, "eth", "price");
    } else if ContainsCI(message, "price of") {
      assert HasAt("price of", 0, "price");
      ContainsAt("price of", 0, "price");
      ContainsTransitive(n, "price of", "price");
    } else if ContainsCI(message, "stock price") {
      assert HasAt("stock price", 6, "price");
      ContainsAt("stock price", 6, "price");
      ContainsTransitive(n, "stock price", "price");
    } else if ContainsCI(message, "market price") {
      assert HasAt("market price", 7, "price");
      ContainsAt("market price", 7, "price");
      ContainsTransitive(n, "market price", "price");
    }
  }

  /** `isSessionSwitchRequest`: `load.*session`, `switch to`, `open.*session`, `change to.*session`. */
  predicate IsSessionSwitchRequest(message: string) {
    || Follows(message, "load", "session")
    || ContainsCI(message, "switch to")
    || Follows(message, "open", "session")
    || Follows(message, "change to", "session")
  }

  // ---------------------------------------------------------------------------
  // handleSpecialQueries: which handler answers
  // ---------------------------------------------------------------------------

  datatype Route = JokeRoute | MarketRoute | SessionRoute | NoRoute

  /** `message.toLowerCase().trim()`, the text the three tests see. */
  function Normalize(message: string): string {
    Trim(Lower(message))
  }

  /** The handler `handleSpecialQueries` picks: the first test that holds, in the order joke, market, session. */
  function RouteOf(message: string): (r: Route)
    ensures r == JokeRoute <==> IsJokeRequest(Normalize(message))
    ensures r == MarketRoute <==> !IsJokeRequest(Normalize(message)) && IsMarketDataRequest(Normalize(message))
    ensures r == SessionRoute <==>
              && !IsJokeRequest(Normalize(message)) && !IsMarketDataRequest(Normalize(message))
              && IsSessionSwitchRequest(Normalize(message))
  {
    var n := Normalize(message);
    if IsJokeRequest(n) then JokeRoute
    else if IsMarketDataRequest(n) then MarketRoute
    else if IsSessionSwitchRequest(n) then SessionRoute
    else NoRoute
  }

  /** A message that says "joke" in any case is answered with a joke, whatever else it asks. */
  lemma RouteJokeFirst(message: string)
    requires Contains(Lower(message), "joke")
    ensures RouteOf(message) == JokeRoute
  {
    TrimKeepsWord(Lower(message), "joke");
    ContainsLower(Trim(Lower(message)), "joke");
    assert Lower("joke") == "joke";
  }

  // ---------------------------------------------------------------------------
  // handleJokeRequest
  // ---------------------------------------------------------------------------

  /** The category asked for: crypto or bitcoin, then market, bull or bear, else trading. */
  function JokeCategoryFor(message: string): (c: Jokes.Category)
    ensures c != Jokes.General
    ensures c == Jokes.Crypto <==> Contains(message, "crypto") || Contains(message, "bitcoin")
    ensures c == Jokes.Market <==>
              && !Contains(message, "crypto") && !Contains(message, "bitcoin")
              && (Contains(message, "market") || Contains(message, "bull") || Contains(message, "bear"))
  {
    if Contains(message, "crypto") || Contains(message, "bitcoin") then Jokes.Crypto
    else if Contains(message, "market") || Contains(message, "bull") || Contains(message, "bear") then Jokes.Market
    else Jokes.Trading
  }

  /** `/another|more|again/i`. */
  predicate WantsAnother(message: string) {
    ContainsCI(message, "another") || ContainsCI(message, "more") || ContainsCI(message, "again")
  }

  /** The joke `getRandomJoke` draws for this message; it is never null, so no second draw happens. */
  function ChosenJoke(used: seq<string>, message: string, roll: real): (j: Jokes.Joke)
    requires 0.0 <= roll < 1.0
    ensures j in Jokes.Catalog
    ensures Jokes.FreshJokeExists(used, Some(JokeCategoryFor(message))) ==>
              j.id !in used && j.category == JokeCategoryFor(message)
  {
    Jokes.GetRandomJoke(used, Some(JokeCategoryFor(message)), roll).value
  }

  const GoodMoodPrefix := "You're in a good mood! 😄 Here's another one:\n\n"
  const GladPrefix := "Glad you enjoyed that! Here's a different one:\n\n"
  const FollowUp := "\n\nHow's your trading going today? Any interesting setups you're watching? 📈"

  /** The opening of the reply, chosen by whether the recent log mentions `joke` (case-sensitively). */
  function JokePrefix(message: string, recent: string): string {
    if WantsAnother(message) && Contains(recent, "joke") then GoodMoodPrefix
    else if Contains(recent, "joke") then GladPrefix
    else ""
  }

  /** The text `handleJokeRequest` returns for the drawn joke; `followRoll > 0.7` adds the question. */
  function JokeReply(message: string, recent: string, joke: Jokes.Joke, followRoll: real): string {
    JokePrefix(message, recent) + Jokes.FormatJoke(joke) + (if followRoll > 0.7 then FollowUp else "")
  }

  /** The reply carries the whole joke, so it is never empty. */
  lemma JokeReplyShowsJoke(message: string, recent: string, joke: Jokes.Joke, followRoll: real)
    ensures Contains(JokeReply(message, recent, joke, followRoll), Jokes.FormatJoke(joke))
    ensures JokeReply(message, recent, joke, followRoll) != ""
  {
    ContainsSelf(Jokes.FormatJoke(joke));
    ContainsInConcat(JokePrefix(message, recent), Jokes.FormatJoke(joke),
                     if followRoll > 0.7 then FollowUp else "", Jokes.FormatJoke(joke));
    Jokes.FormatJokeParts(joke);
  }

  /**
   * The user's message is recorded before the joke is chosen, so when it says
   * `joke` in lower case the recent log does too and the reply gets a prefix:
   * the good-mood one exactly when another, more or again is asked for.
   */
  lemma TypedJokeGetsPrefix(c: Context, message: string, now: int)
    requires Contains(message, "joke")
    ensures var logged := PushCapped(c.messages, Message(User, message, now), MessageCap);
            var prefix := JokePrefix(Normalize(message), RenderRecent(logged, 3));
            && (WantsAnother(Normalize(message)) ==> prefix == GoodMoodPrefix)
            && (!WantsAnother(Normalize(message)) ==> prefix == GladPrefix)
  {
    var logged := PushCapped(c.messages, Message(User, message, now), MessageCap);
    NewestMessageRendered(logged, 3, "joke");
  }

  /** A request naming crypto gets the only crypto joke while it is unused. */
  lemma CryptoRequestGetsCryptoJoke(used: seq<string>, message: string, roll: real)
    requires 0.0 <= roll < 1.0
    requires Contains(message, "crypto") && "joke_4" !in used
    ensures ChosenJoke(used, message, roll).id == "joke_4"
  {
    Jokes.CryptoWhileFresh(used, roll);
  }

  /** A second update of the same key overrides the first. */
  lemma UpdateTwice<K, V>(m: map<K, V>, k: K, a: V, b: V)
    ensures m[k := a][k := b] == m[k := b]
  {
  }

  /** The reply built up with `+=`: prefix, joke, and the occasional follow-up question. */
  method BuildJokeReply(message: string, recent: string, joke: Jokes.Joke, followRoll: real) returns (response: string)
    ensures response == JokeReply(message, recent, joke, followRoll)
  {
    var wantsAnother := WantsAnother(message);
    response := "";
    if wantsAnother && Contains(recent, "joke") {
      response := GoodMoodPrefix;
    } else if Contains(recent, "joke") {
      response := GladPrefix;
    }
    response := response + Jokes.FormatJoke(joke);
    if followRoll > 0.7 {
      response := response + FollowUp;
    }
  }

  /** The context after `markJokeUsed` records the joke drawn for `message`. */
  function JokeMarked(c: Context, message: string, roll: real): Context
    requires 0.0 <= roll < 1.0
  {
    c.(usedJokes := PushCapped(c.usedJokes, ChosenJoke(c.usedJokes, message, roll).id, UsedJokeCap))
  }

  /** The two reads `handleJokeRequest` starts with: the used jokes and the last three messages. */
  method ReadJokeContext(cm: ConversationManager, userId: string, now: int) returns (used: seq<string>, recent: string)
    modifies cm
    ensures var c := ContextOf(old(cm.contexts), userId, now);
            && used == c.usedJokes && recent == RenderRecent(c.messages, 3)
            && cm.contexts == old(cm.contexts)[userId := c]
  {
    used := cm.GetUsedJokes(userId, now);
    recent := cm.GetRecentMessages(userId, 3, now);
  }

  /**
   * `handleJokeRequest`: reads the used jokes and the last three messages,
   * draws a joke of the requested category, marks it used and builds the reply.
   */
  method HandleJokeRequest(cm: ConversationManager, userId: string, message: string, now: int, roll: real, followRoll: real)
    returns (response: string)
    requires 0.0 <= roll < 1.0
    modifies cm
    ensures var c := ContextOf(old(cm.contexts), userId, now);
            response == JokeReply(message, RenderRecent(c.messages, 3), ChosenJoke(c.usedJokes, message, roll), followRoll)
    ensures cm.contexts == old(cm.contexts)[userId := JokeMarked(ContextOf(old(cm.contexts), userId, now), message, roll)]
  {
    ghost var c := ContextOf(old(cm.contexts), userId, now);
    var used, recent := ReadJokeContext(cm, userId, now);
    // getRandomJoke never returns null, so the reset draw and the
    // "all out of fresh jokes" reply are never reached.
    var joke := ChosenJoke(used, message, roll);
    cm.MarkJokeUsed(userId, joke.id, now);
    UpdateTwice(old(cm.contexts), userId, c, JokeMarked(c, message, roll));
    response := BuildJokeReply(message, recent, joke, followRoll);
  }

  // ---------------------------------------------------------------------------
  // handleMarketDataRequest
  // ---------------------------------------------------------------------------

  /**
   * What fetching a detected asset gave: the formatted price text
   * (`formatPriceResponse`, not modelled), no data, or an exception.
   */
  datatype FetchOutcome = Found(formatted: string) | NotFound | Failed

  const AskForAsset := "I'd love to help you get market data! Could you specify which asset you're interested in? For example:\n• \"What's Bitcoin price?\"\n• \"AAPL stock price\"\n• \"EURUSD rate\""
  const MarketTrouble := "I'm having trouble accessing live market data right now. Please try again in a moment! 📡"

  const NoDataHead := "Sorry, I couldn't find current data for "
  const NoDataTail := ". The symbol might be incorrect or the market might be closed. Try checking the spelling or ask about a different asset! 🔍"

  /** The reply when the fetch found nothing: it names the symbol. */
  function NoDataFor(symbol: string): (r: string)
    ensures Contains(r, symbol)
  {
    ContainsSelf(symbol);
    ContainsInConcat(NoDataHead, symbol, NoDataTail, symbol);
    NoDataHead + symbol + NoDataTail
  }

  /** The remark appended to a price for each asset type. */
  function MarketRemark(kind: MarketData.AssetType): string {
    match kind
    case CryptoAsset => "\n\nLooking strong! Are you thinking of making a move? 🤔"
    case StockAsset => "\n\nInteresting movement! What's your take on this? 📊"
    case ForexAsset => "\n\nForex markets are always moving! Any trades planned? 💱"
    case UnknownAsset => ""
  }

  /** The reply for a detected asset once its fetch has an outcome. */
  function QuoteReply(d: MarketData.Detection, outcome: FetchOutcome): (r: string)
    requires d.kind != MarketData.UnknownAsset
    ensures r != ""
    ensures outcome == NotFound ==> Contains(r, d.symbol)
    ensures outcome == Failed ==> r == MarketTrouble
    ensures outcome.Found? ==> |r| > |outcome.formatted| && r[..|outcome.formatted|] == outcome.formatted
    ensures outcome.Found? ==> r[|outcome.formatted|..] == MarketRemark(d.kind)
  {
    match outcome
    case Failed => MarketTrouble
    case NotFound => NoDataFor(d.symbol)
    case Found(text) =>
      assert |MarketRemark(d.kind)| > 0;
      text + MarketRemark(d.kind)
  }

  /**
   * `handleMarketDataRequest`: an unknown asset or an empty symbol is answered
   * with a fixed question and nothing is fetched; otherwise the asset is fetched
   * and the outcome turned into a reply.
   */
  function MarketReply(message: string, fetch: MarketData.Detection -> FetchOutcome): (r: string)
    ensures r != ""
    ensures var d := MarketData.DetectAssetType(message);
            d.kind == MarketData.UnknownAsset ==> r == AskForAsset
    ensures var d := MarketData.DetectAssetType(message);
            d.kind != MarketData.UnknownAsset ==> r == QuoteReply(d, fetch(d))
  {
    var d := MarketData.DetectAssetType(message);
    if d.kind == MarketData.UnknownAsset || d.symbol == "" then AskForAsset
    else QuoteReply(d, fetch(d))
  }

  /** A question about bitcoin fetches BTC as a crypto asset, and a missing quote names BTC. */
  lemma BitcoinQuote(message: string, fetch: MarketData.Detection -> FetchOutcome)
    requires Contains(Lower(message), "bitcoin")
    ensures var btc := MarketData.Detection(MarketData.CryptoAsset, "BTC");
            && MarketReply(message, fetch) == QuoteReply(btc, fetch(btc))
            && (fetch(btc) == NotFound ==> Contains(MarketReply(message, fetch), "BTC"))
  {
    MarketData.BitcoinFirst(message);
  }

  // ---------------------------------------------------------------------------
  // handleSessionSwitch
  // ---------------------------------------------------------------------------

  const SwitchHelp := "I'd be happy to help you switch sessions! Could you tell me which session you'd like to load? For example: \"Load the BTC 5 Minute session\""

  const SwitchedHead := "✅ Switched to \""
  const SwitchedTail := "\" session! You can now view and analyze the trades from this session. What would you like to know about it?"
  const NotFoundHead := "❌ I couldn't find a session named \""
  const NotFoundTail := "\". Here are some tips:\n• Check the spelling\n• Try using part of the session name\n• Ask me to list your sessions first"

  /** The confirmation after a successful lookup: it quotes the name. */
  function SwitchedReply(name: string): (r: string)
    ensures Contains(r, name)
  {
    ContainsSelf(name);
    ContainsInConcat(SwitchedHead, name, SwitchedTail, name);
    SwitchedHead + name + SwitchedTail
  }

  /** The answer when no session matches: it quotes the name too. */
  function SessionNotFoundReply(name: string): (r: string)
    ensures Contains(r, name)
  {
    ContainsSelf(name);
    ContainsInConcat(NotFoundHead, name, NotFoundTail, name);
    NotFoundHead + name + NotFoundTail
  }

  /** A looked-up session id is used only when it is truthy: present and non-empty. */
  predicate Truthy(id: Option<string>) {
    id.Some? && id.value != ""
  }

  /**
   * `handleSessionSwitch`: capture the name with
   * `(?:load|switch to|open|change to)\s+(?:the\s+)?(.+?)\s+session`, look it
   * up for the user (`switchToSession`, an input here) and report.
   */
  function SessionSwitchReply(message: string, userId: string, lookup: (string, string) -> Option<string>): (r: string)
    ensures CapturedName(message, ServiceSwitch).None? ==> r == SwitchHelp
    ensures CapturedName(message, ServiceSwitch).Some? ==>
              var name := CapturedName(message, ServiceSwitch).value;
              && Contains(r, name)
              && (Truthy(lookup(name, userId)) ==> r == SwitchedReply(name))
              && (!Truthy(lookup(name, userId)) ==> r == SessionNotFoundReply(name))
  {
    match CapturedName(message, ServiceSwitch)
    case None => SwitchHelp
    case Some(name) =>
      if Truthy(lookup(name, userId)) then SwitchedReply(name) else SessionNotFoundReply(name)
  }

  /** Without the word session the name cannot be captured, and the help text is the answer. */
  lemma NoSessionWordGetsHelp(message: string, userId: string, lookup: (string, string) -> Option<string>)
    requires !ContainsCI(message, "session")
    ensures SessionSwitchReply(message, userId, lookup) == SwitchHelp
  {
    LazyNeedsSession(message, ServiceSwitch);
  }

  /** "Load the BTC 5 Minute session" asks for the session "BTC 5 Minute". */
  lemma LoadTheSessionReply(s: string, userId: string, lookup: (string, string) -> Option<string>)
    requires s == "Load the BTC 5 Minute session"
    ensures Truthy(lookup("BTC 5 Minute", userId)) ==> SessionSwitchReply(s, userId, lookup) == SwitchedReply("BTC 5 Minute")
    ensures !Truthy(lookup("BTC 5 Minute", userId)) ==> SessionSwitchReply(s, userId, lookup) == SessionNotFoundReply("BTC 5 Minute")
  {
    LoadTheExample(s);
  }

  // ---------------------------------------------------------------------------
  // handleSpecialQueries and sendChatMessage
  // ---------------------------------------------------------------------------

  /**
   * The reply `handleSpecialQueries` gives a routed message: the joke handler's
   * for the normalized message, the user's log `msgs` and used jokes `used`; the
   * market or session handler's for the message as typed.
   */
  function RoutedReply(
    message: string, userId: string, msgs: seq<Message>, used: seq<string>, roll: real, followRoll: real,
    fetch: MarketData.Detection -> FetchOutcome, lookup: (string, string) -> Option<string>): (r: string)
    requires 0.0 <= roll < 1.0
    requires RouteOf(message) != NoRoute
    ensures r != ""
  {
    if RouteOf(message) == JokeRoute then
      var joke := ChosenJoke(used, Normalize(message), roll);
      JokeReplyShowsJoke(Normalize(message), RenderRecent(msgs, 3), joke, followRoll);
      JokeReply(Normalize(message), RenderRecent(msgs, 3), joke, followRoll)
    else if RouteOf(message) == MarketRoute then MarketReply(message, fetch)
    else
      SessionReplyNonEmpty(message, userId, lookup);
      SessionSwitchReply(message, userId, lookup)
  }

  /** The session reply is the help text or quotes a non-empty name, so it is never empty. */
  lemma SessionReplyNonEmpty(message: string, userId: string, lookup: (string, string) -> Option<string>)
    ensures SessionSwitchReply(message, userId, lookup) != ""
  {
    if CapturedName(message, ServiceSwitch).Some? {
      ContainsLength(SessionSwitchReply(message, userId, lookup), CapturedName(message, ServiceSwitch).value);
    }
  }

  /** The used-joke ids after `handleSpecialQueries`: only the joke route records the drawn joke. */
  function UsedAfterRouting(used: seq<string>, message: string, roll: real): (r: seq<string>)
    requires 0.0 <= roll < 1.0
    ensures RouteOf(message) != JokeRoute ==> r == used
    ensures RouteOf(message) == JokeRoute ==>
              1 <= |r| <= UsedJokeCap && r[|r| - 1] == ChosenJoke(used, Normalize(message), roll).id
  {
    if RouteOf(message) == JokeRoute then PushCapped(used, ChosenJoke(used, Normalize(message), roll).id, UsedJokeCap)
    else used
  }

  /**
   * A joke turn records a joke that was not among the used ids whenever an
   * unused joke of the requested category is left: the new id differs from
   * every id kept before it, so no joke repeats then.
   */
  lemma JokeTurnRecordsFreshJoke(used: seq<string>, message: string, roll: real)
    requires 0.0 <= roll < 1.0
    requires RouteOf(message) == JokeRoute
    requires Jokes.FreshJokeExists(used, Some(JokeCategoryFor(Normalize(message))))
    ensures var r := UsedAfterRouting(used, message, roll);
            r[|r| - 1] !in used && forall i :: 0 <= i < |r| - 1 ==> r[i] != r[|r| - 1]
  {
    var id := ChosenJoke(used, Normalize(message), roll).id;
    PushCappedFresh(used, id, UsedJokeCap);
  }

  /**
   * `handleSpecialQueries`: the joke handler sees the normalized message, the
   * market and session handlers the message as typed.
   */
  method HandleSpecialQueries(
    cm: ConversationManager, message: string, userId: string, now: int, roll: real, followRoll: real,
    fetch: MarketData.Detection -> FetchOutcome, lookup: (string, string) -> Option<string>)
    returns (r: Option<string>)
    requires 0.0 <= roll < 1.0
    modifies cm
    ensures r.Some? <==> RouteOf(message) != NoRoute
    ensures r.Some? ==>
              var c := ContextOf(old(cm.contexts), userId, now);
              r.value == RoutedReply(message, userId, c.messages, c.usedJokes, roll, followRoll, fetch, lookup)
    ensures RouteOf(message) != JokeRoute ==> cm.contexts == old(cm.contexts)
    ensures RouteOf(message) == JokeRoute ==>
              var c := ContextOf(old(cm.contexts), userId, now);
              cm.contexts == old(cm.contexts)[userId := c.(usedJokes := UsedAfterRouting(c.usedJokes, message, roll))]
  {
    var normalized := Normalize(message);
    if IsJokeRequest(normalized) {
      var text := HandleJokeRequest(cm, userId, normalized, now, roll, followRoll);
      return Some(text);
    }
    if IsMarketDataRequest(normalized) {
      return Some(MarketReply(message, fetch));
    }
    if IsSessionSwitchRequest(normalized) {
      return Some(SessionSwitchReply(message, userId, lookup));
    }
    return None;
  }

  const SendFailed := "Failed to send chat message"

  /** The request body `sendChatMessage` posts: no original message and no live-data flag. */
  function BackendRequest(message: string, userId: string, sessionId: Option<string>, recent: string): AiChat.ChatRequest {
    AiChat.ChatRequest(message, None, sessionId, userId, Some(recent), None)
  }

  /** `throw new Error(error.message || 'Failed to send chat message')`, or the reply text. */
  function BackendReply(outcome: Result<string>): (r: Result<string>)
    ensures outcome.Ok? ==> r == outcome
    ensures outcome.Err? ==> r.Err? && r.message != ""
    ensures outcome.Err? && outcome.message != "" ==> r == outcome
  {
    match outcome
    case Ok(text) => Ok(text)
    case Err(m) => Err(if m != "" then m else SendFailed)
  }

  /** The log after the user's turn is recorded. */
  function Logged(contexts: map<string, Context>, userId: string, message: string, now: int): (msgs: seq<Message>)
    ensures |msgs| >= 1 && msgs[|msgs| - 1] == Message(User, message, now)
    ensures |msgs| <= MessageCap
  {
    PushCapped(ContextOf(contexts, userId, now).messages, Message(User, message, now), MessageCap)
  }

  /** Replacing one user's context leaves every other user's context as it was. */
  lemma UpdateKeepsOthers(contexts: map<string, Context>, userId: string, c: Context)
    ensures OthersUnchanged(contexts, contexts[userId := c], userId)
  {
  }

  /** Recording a reply after a recorded message leaves the two as the newest pair. */
  lemma LastTwo(msgs: seq<Message>, x: Message)
    requires |msgs| >= 1
    ensures var r := PushCapped(msgs, x, MessageCap);
            |r| >= 2 && r[|r| - 2] == msgs[|msgs| - 1] && r[|r| - 1] == x
  {
    var r := PushCapped(msgs, x, MessageCap);
    var t := msgs + [x];
    assert r == t[|msgs| + 1 - |r|..];
    assert r[|r| - 2] == t[|msgs| - 1];
  }

  /** A log with a message in it renders as a non-empty context, which the prompt then uses verbatim. */
  lemma SentContextIsUsed(msgs: seq<Message>, count: int)
    requires |msgs| >= 1 && count >= 0
    ensures RenderRecent(msgs, count) != ""
    ensures AiChat.ConversationSection(Some(RenderRecent(msgs, count))) == RenderRecent(msgs, count)
  {
    var window := RecentWindow(msgs, count);
    JoinContainsPart(Lines(window), "\n", |window| - 1);
    ContainsLength(RenderRecent(msgs, count), Line(window[|window| - 1]));
  }

  /** The posted request never asks for the live-data block of the prompt. */
  lemma BackendRequestHasNoLiveData(message: string, userId: string, sessionId: Option<string>, recent: string,
                                    sessions: Option<seq<string>>, trades: Option<seq<AiChat.Trade>>)
    ensures AiChat.Prompt(BackendRequest(message, userId, sessionId, recent), sessions, trades).liveData == ""
  {
    AiChat.NoLiveDataWithoutFlag(BackendRequest(message, userId, sessionId, recent), sessions, trades);
  }

  /**
   * The backend path of `sendChatMessage` for a user whose turn is recorded:
   * post the last eight messages; record the reply, or throw (`Err`) and
   * record nothing.
   */
  method AskBackend(
    cm: ConversationManager, message: string, userId: string, sessionId: Option<string>, now: int,
    backend: AiChat.ChatRequest -> Result<string>)
    returns (r: Result<string>)
    requires userId in cm.contexts
    modifies cm
    ensures userId in cm.contexts && cm.contexts == old(cm.contexts)[userId := cm.contexts[userId]]
    ensures r == BackendReply(backend(BackendRequest(message, userId, sessionId, RenderRecent(old(cm.contexts)[userId].messages, 8))))
    ensures r.Err? ==> cm.contexts == old(cm.contexts)
    ensures r.Ok? ==>
              cm.contexts[userId]
                == old(cm.contexts)[userId].(messages := PushCapped(old(cm.contexts)[userId].messages, Message(Assistant, r.value, now), MessageCap))
  {
    var recent := cm.GetRecentMessages(userId, 8, now);
    var outcome := backend(BackendRequest(message, userId, sessionId, recent));
    if outcome.Err? {
      return BackendReply(outcome);
    }
    var aiResponse := outcome.value;
    cm.AddMessage(userId, Assistant, aiResponse, now);
    return Ok(aiResponse);
  }

  /**
   * `sendChatMessage` from the point where the user's turn is recorded: a
   * routed message is answered by its handler (the joke route also records the
   * drawn joke); any other goes to the backend with the last eight messages. A
   * reply is recorded as the assistant's turn; nothing else changes.
   */
  method Respond(
    cm: ConversationManager, message: string, userId: string, sessionId: Option<string>, now: int,
    roll: real, followRoll: real,
    fetch: MarketData.Detection -> FetchOutcome, lookup: (string, string) -> Option<string>,
    backend: AiChat.ChatRequest -> Result<string>)
    returns (r: Result<string>)
    requires 0.0 <= roll < 1.0
    requires userId in cm.contexts
    modifies cm
    ensures var c := old(cm.contexts)[userId];
            cm.contexts == old(cm.contexts)[userId := Answered(c, message, roll, now, r)]
    ensures RouteOf(message) != NoRoute ==>
              var c := old(cm.contexts)[userId];
              r == Ok(RoutedReply(message, userId, c.messages, c.usedJokes, roll, followRoll, fetch, lookup))
    ensures RouteOf(message) == NoRoute ==>
              r == BackendReply(backend(BackendRequest(message, userId, sessionId, RenderRecent(old(cm.contexts)[userId].messages, 8))))
  {
    ghost var c := cm.contexts[userId];
    var special := HandleSpecialQueries(cm, message, userId, now, roll, followRoll, fetch, lookup);
    ghost var marked := c.(usedJokes := UsedAfterRouting(c.usedJokes, message, roll));
    assert cm.contexts == old(cm.contexts)[userId := marked];
    if special.Some? && special.value != "" {
      cm.AddMessage(userId, Assistant, special.value, now);
      UpdateTwice(old(cm.contexts), userId, marked, cm.contexts[userId]);
      return Ok(special.value);
    }
    assert marked == c;
    assert cm.contexts == old(cm.contexts);
    r := AskBackend(cm, message, userId, sessionId, now, backend);
  }

  /**
   * The user's context once a turn is answered: the used jokes as routing
   * left them, and the reply recorded as the assistant's turn when there is one.
   */
  function Answered(c: Context, message: string, roll: real, now: int, r: Result<string>): (a: Context)
    requires 0.0 <= roll < 1.0
    ensures a.tone == c.tone && a.topics == c.topics && a.sessionStartTime == c.sessionStartTime
    ensures a.usedJokes == UsedAfterRouting(c.usedJokes, message, roll)
    ensures r.Err? ==> a.messages == c.messages
    ensures r.Ok? ==> a.messages == PushCapped(c.messages, Message(Assistant, r.value, now), MessageCap)
  {
    c.(messages := if r.Ok? then PushCapped(c.messages, Message(Assistant, r.value, now), MessageCap) else c.messages,
       usedJokes := UsedAfterRouting(c.usedJokes, message, roll))
  }

  /**
   * What `sendChatMessage` promises about memory and its result: the user's
   * context (created if missing) gets the user's turn, then the routing's joke
   * record and the reply; every other context is as it was. A routed message
   * gets its handler's reply to the log that includes its own turn; any other
   * gets the backend's answer to the last eight logged messages.
   */
  ghost predicate SendRecorded(
    before: map<string, Context>, after: map<string, Context>,
    message: string, userId: string, sessionId: Option<string>, now: int, roll: real, followRoll: real,
    fetch: MarketData.Detection -> FetchOutcome, lookup: (string, string) -> Option<string>,
    backend: AiChat.ChatRequest -> Result<string>, r: Result<string>)
    requires 0.0 <= roll < 1.0
  {
    var c := ContextOf(before, userId, now);
    var logged := Logged(before, userId, message, now);
    && after == before[userId := Answered(c.(messages := logged), message, roll, now, r)]
    && (RouteOf(message) != NoRoute ==>
          r == Ok(RoutedReply(message, userId, logged, c.usedJokes, roll, followRoll, fetch, lookup)))
    && (RouteOf(message) == NoRoute ==>
          r == BackendReply(backend(BackendRequest(message, userId, sessionId, RenderRecent(logged, 8)))))
  }

  /**
   * `sendChatMessage`: records the user's turn, answers locally when a special
   * query matches, and otherwise posts the last eight messages to the `ai-chat`
   * function (`backend`). A reply is recorded as the assistant's turn; an error
   * is thrown (`Err`) and nothing more is recorded.
   */
  method SendChatMessage(
    cm: ConversationManager, message: string, userId: string, sessionId: Option<string>, now: int,
    roll: real, followRoll: real,
    fetch: MarketData.Detection -> FetchOutcome, lookup: (string, string) -> Option<string>,
    backend: AiChat.ChatRequest -> Result<string>)
    returns (r: Result<string>)
    requires 0.0 <= roll < 1.0
    modifies cm
    ensures SendRecorded(old(cm.contexts), cm.contexts, message, userId, sessionId, now, roll, followRoll, fetch, lookup, backend, r)
    ensures OthersUnchanged(old(cm.contexts), cm.contexts, userId)
    ensures RouteOf(message) != NoRoute ==> r.Ok? && r.value != ""
  {
    ghost var c := ContextOf(old(cm.contexts), userId, now);
    cm.AddMessage(userId, User, message, now);
    ghost var logged := cm.contexts;
    assert logged[userId] == c.(messages := Logged(old(cm.contexts), userId, message, now));
    r := Respond(cm, message, userId, sessionId, now, roll, followRoll, fetch, lookup, backend);
    UpdateTwice(old(cm.contexts), userId, logged[userId], cm.contexts[userId]);
    UpdateKeepsOthers(old(cm.contexts), userId, cm.contexts[userId]);
  }

  // ---------------------------------------------------------------------------
  // getGreeting
  // ---------------------------------------------------------------------------

  /** The part of the day: before noon, before five in the afternoon, or later. */
  function TimeGreeting(hour: int): string {
    if hour < 12 then "Good morning"
    else if hour < 17 then "Good afternoon"
    else "Good evening"
  }

  /** The holiday prefix for a 0-based month and a day of the month. */
  function HolidayGreeting(month: int, day: int): string {
    if month == 11 && day == 25 then "🎄 Merry Christmas! "
    else if month == 0 && day == 1 then "🎉 Happy New Year! "
    else if month == 9 && day == 31 then "🎃 Happy Halloween! "
    else ""
  }

  /** ` ${userName}` for a truthy name, else nothing. */
  function NamePart(userName: Option<string>): string {
    if userName.Some? && userName.value != "" then " " + userName.value else ""
  }

  const GreetingEndings: seq<string> := [
    "! How's your trading going today?",
    "! Ready to analyze some trades?",
    "! What's on your trading radar today?",
    "! Any exciting market moves catching your eye?"
  ]

  /** `getGreeting`: one of four sentences, all opening with holiday, time of day and name. */
  function Greeting(hour: int, month: int, day: int, userName: Option<string>, roll: real): (r: string)
    requires 0.0 <= roll < 1.0
    ensures exists k :: 0 <= k < |GreetingEndings| &&
              r == HolidayGreeting(month, day) + TimeGreeting(hour) + NamePart(userName) + GreetingEndings[k]
  {
    var k := Jokes.PickIndex(roll, |GreetingEndings|);
    HolidayGreeting(month, day) + TimeGreeting(hour) + NamePart(userName) + GreetingEndings[k]
  }

  /** Apart from the three holidays, the greeting opens with the time of day, bucketed at 12 and 17. */
  lemma GreetingOpening(hour: int, month: int, day: int, userName: Option<string>, roll: real)
    requires 0.0 <= roll < 1.0
    requires !(month == 11 && day == 25) && !(month == 0 && day == 1) && !(month == 9 && day == 31)
    ensures var g := Greeting(hour, month, day, userName, roll);
            && (hour < 12 ==> g[..12] == "Good morning")
            && (12 <= hour < 17 ==> g[..14] == "Good afternoon")
            && (17 <= hour ==> g[..12] == "Good evening")
  {
    var k :| 0 <= k < |GreetingEndings| &&
              Greeting(hour, month, day, userName, roll) == "" + TimeGreeting(hour) + NamePart(userName) + GreetingEndings[k];
    var t, rest := TimeGreeting(hour), NamePart(userName) + GreetingEndings[k];
    assert "" + t == t;
    AppendAssoc(t, NamePart(userName), GreetingEndings[k]);
    assert (t + rest)[..|t|] == t;
  }

  /** A truthy user name appears in the greeting. */
  lemma GreetingNamesUser(hour: int, month: int, day: int, name: string, roll: real)
    requires 0.0 <= roll < 1.0 && name != ""
    ensures Contains(Greeting(hour, month, day, Some(name), roll), name)
  {
    var k :| 0 <= k < |GreetingEndings| &&
              Greeting(hour, month, day, Some(name), roll)
                == HolidayGreeting(month, day) + TimeGreeting(hour) + NamePart(Some(name)) + GreetingEndings[k];
    var part := NamePart(Some(name));
    assert part[1..] == name;
    ContainsAt(part, 1, name);
    ContainsInConcat(HolidayGreeting(month, day) + TimeGreeting(hour), part, GreetingEndings[k], name);
  }
}
