/**
 * The `ai-chat` edge function: the trade summary it computes for the prompt,
 * the prompt's conditional sections, the fallback reply and the way any
 * failure becomes a 500 response.
 *
 * The two database queries and the Gemini call are inputs: each is the result
 * the handler would have received. Profit and loss are exact reals.
 */
module AiChat {
  import opened Wrappers
  import opened Text

  /** The JSON body the client posts. Optional fields are `None` when absent. */
  datatype ChatRequest = ChatRequest(
    message: string,
    originalMessage: Option<string>,
    sessionId: Option<string>,
    userId: string,
    conversationContext: Option<string>,
    hasLiveData: Option<bool>)

  datatype Trade = Trade(id: string, sessionId: string, profitLoss: real)

  /** The numbers in the "USER'S TRADING DATA SUMMARY" block. */
  datatype TradeSummary = TradeSummary(
    totalSessions: nat,
    totalTrades: nat,
    totalProfit: real,
    winningTrades: nat,
    losingTrades: nat,
    winRate: real)

  /** The parts of the system prompt that depend on the request and the data. */
  datatype PromptSections = PromptSections(conversation: string, summary: TradeSummary, liveData: string)

  /**
   * What the Gemini call gave: `fetch` threw, a non-2xx status, a body that
   * `.json()` could not read, or the first candidate's text if any.
   */
  datatype GeminiOutcome = FetchThrew(error: string) | NotOk | Unreadable(error: string) | Answered(firstText: Option<string>)

  datatype Body = Reply(message: string) | Failure(error: string, details: string)

  datatype Response = Response(status: nat, body: Body)

  const NoConversation := "No previous conversation"
  const FallbackReply := "Sorry, I could not process your request."
  const FailureError := "Failed to process chat request"
  const SessionsFailed := "Failed to fetch sessions"
  const TradesFailed := "Failed to fetch trades"
  const GeminiFailed := "Gemini API request failed"

  // ---------------------------------------------------------------------------
  // Trade statistics
  // ---------------------------------------------------------------------------

  /** `trades.reduce((sum, trade) => sum + trade.profit_loss, 0)`, folded left to right. */
  function SumProfit(trades: seq<Trade>): real
    decreases |trades|
  {
    if trades == [] then 0.0 else SumProfit(trades[..|trades| - 1]) + trades[|trades| - 1].profitLoss
  }

  /** The number of trades with `profit_loss > 0`. */
  function Wins(trades: seq<Trade>): (n: nat)
    ensures n <= |trades|
  {
    if trades == [] then 0 else (if trades[0].profitLoss > 0.0 then 1 else 0) + Wins(trades[1..])
  }

  /** The number of trades with `profit_loss < 0`. */
  function Losses(trades: seq<Trade>): (n: nat)
    ensures n <= |trades|
  {
    if trades == [] then 0 else (if trades[0].profitLoss < 0.0 then 1 else 0) + Losses(trades[1..])
  }

  /** Break-even trades count as neither, so the two counts never exceed the number of trades. */
  lemma {:induction false} WinsAndLossesBounded(trades: seq<Trade>)
    ensures Wins(trades) + Losses(trades) <= |trades|
    ensures Wins(trades) + Losses(trades) == |trades| <==> forall i :: 0 <= i < |trades| ==> trades[i].profitLoss != 0.0
  {
    if trades != [] {
      WinsAndLossesBounded(trades[1..]);
      var rest := trades[1..];
      if forall i :: 0 <= i < |trades| ==> trades[i].profitLoss != 0.0 {
        assert forall i :: 0 <= i < |rest| ==> rest[i].profitLoss != 0.0 by {
          forall i | 0 <= i < |rest| ensures rest[i].profitLoss != 0.0 {
            assert rest[i] == trades[i + 1];
          }
        }
      }
      if Wins(trades) + Losses(trades) == |trades| {
        forall i | 0 <= i < |trades| ensures trades[i].profitLoss != 0.0 {
          if i > 0 {
            assert trades[i] == rest[i - 1];
          }
        }
      }
    }
  }

  lemma RatioAtMostOne(a: real, b: real)
    requires 0.0 <= a <= b && b > 0.0
    ensures 0.0 <= a / b <= 1.0
    ensures (a / b) * b == a
  {
  }

  /** `(winningTrades / trades.length) * 100`, or 0 without trades. */
  function WinRate(wins: nat, total: nat): (rate: real)
    requires wins <= total
    ensures 0.0 <= rate <= 100.0
    ensures total == 0 ==> rate == 0.0
    ensures total > 0 ==> rate * (total as real) == 100.0 * (wins as real)
  {
    if total == 0 then 0.0
    else
      var ratio := (wins as real) / (total as real);
      RatioAtMostOne(wins as real, total as real);
      ratio * 100.0
  }

  /**
   * The summary block. `trades` is `None` when the query returned no data;
   * `?.` then makes every count 0, as `|| 0` does for a zero sum.
   */
  function Summarize(sessions: Option<seq<string>>, trades: Option<seq<Trade>>): (s: TradeSummary)
    ensures s.totalSessions == (if sessions.Some? then |sessions.value| else 0)
    ensures s.totalTrades == (if trades.Some? then |trades.value| else 0)
    ensures s.winningTrades + s.losingTrades <= s.totalTrades
    ensures 0.0 <= s.winRate <= 100.0
    ensures s.totalTrades == 0 ==> s.totalProfit == 0.0 && s.winRate == 0.0 && s.winningTrades == 0
  {
    match trades
    case None => TradeSummary(if sessions.Some? then |sessions.value| else 0, 0, 0.0, 0, 0, 0.0)
    case Some(ts) =>
      WinsAndLossesBounded(ts);
      TradeSummary(
        if sessions.Some? then |sessions.value| else 0,
        |ts|,
        SumProfit(ts),
        Wins(ts),
        Losses(ts),
        WinRate(Wins(ts), |ts|))
  }

  /** Appending one trade adds its profit to the total and shifts exactly one counter by its sign. */
  lemma {:induction false} SummaryAppend(ts: seq<Trade>, t: Trade)
    ensures SumProfit(ts + [t]) == SumProfit(ts) + t.profitLoss
    ensures Wins(ts + [t]) == Wins(ts) + (if t.profitLoss > 0.0 then 1 else 0)
    ensures Losses(ts + [t]) == Losses(ts) + (if t.profitLoss < 0.0 then 1 else 0)
    decreases |ts|
  {
    assert (ts + [t])[..|ts|] == ts;
    if ts != [] {
      assert (ts + [t])[1..] == ts[1..] + [t];
      SummaryAppend(ts[1..], t);
    }
  }

  // ---------------------------------------------------------------------------
  // Prompt sections
  // ---------------------------------------------------------------------------

  /** `conversationContext || 'No previous conversation'`. */
  function ConversationSection(context: Option<string>): (r: string)
    ensures r != ""
    ensures context.Some? && context.value != "" ==> r == context.value
    ensures context.None? || context.value == "" ==> r == NoConversation
  {
    if context.Some? && context.value != "" then context.value else NoConversation
  }

  /** A template interpolation of an optional string: an absent value prints `undefined`. */
  function Interpolate(value: Option<string>): string {
    if value.Some? then value.value else "undefined"
  }

  const LiveHeader := "\n\U{00F0}\U{0178}\U{0152} LIVE DATA INTEGRATION:\nThe user's message has been enriched with real-time market data or web search results. This information is current and accurate. Use it naturally in your response.\n\n"
  const LiveFooter := "\"\n\nPlease incorporate the live data naturally into your response. Don't just repeat it - analyze it, provide insights, and relate it to trading.\n"

  const OriginalLabel := "ORIGINAL USER MESSAGE: \""
  const EnrichedLabel := "\"\nENRICHED MESSAGE WITH LIVE DATA: \""

  /**
   * The live-data block: present only when `hasLiveData` is `true`; it opens
   * with the header and quotes the original message and then the enriched one,
   * each after its label.
   */
  function LiveSection(req: ChatRequest): (r: string)
    ensures req.hasLiveData != Some(true) ==> r == ""
    ensures req.hasLiveData == Some(true) ==>
              && |LiveHeader| <= |r| && r[..|LiveHeader|] == LiveHeader
              && Contains(r, OriginalLabel + Interpolate(req.originalMessage))
              && Contains(r, EnrichedLabel + req.message)
  {
    if req.hasLiveData == Some(true) then
      var original := OriginalLabel + Interpolate(req.originalMessage);
      var enriched := EnrichedLabel + req.message;
      LiveQuotes(original, enriched);
      LiveHeader + original + enriched + LiveFooter
    else ""
  }

  /** Both quotes, and the header in front, survive the concatenation of the block. */
  lemma LiveQuotes(original: string, enriched: string)
    ensures var r := LiveHeader + original + enriched + LiveFooter;
            && r[..|LiveHeader|] == LiveHeader
            && Contains(r, original) && Contains(r, enriched)
  {
    var r := LiveHeader + original + enriched + LiveFooter;
    ContainsSelf(original);
    ContainsSelf(enriched);
    ContainsLeft(original, enriched, original);
    ContainsInConcat(LiveHeader, original + enriched, LiveFooter, original);
    assert LiveHeader + (original + enriched) + LiveFooter == r;
    ContainsInConcat(LiveHeader + original, enriched, LiveFooter, enriched);
  }

  function Prompt(req: ChatRequest, sessions: Option<seq<string>>, trades: Option<seq<Trade>>): PromptSections {
    PromptSections(ConversationSection(req.conversationContext), Summarize(sessions, trades), LiveSection(req))
  }

  // ---------------------------------------------------------------------------
  // The handler's control flow
  // ---------------------------------------------------------------------------

  /** `candidates?.[0]?.content?.parts?.[0]?.text || 'Sorry, ...'`. */
  function ReplyText(firstText: Option<string>): (r: string)
    ensures r != ""
    ensures firstText.Some? && firstText.value != "" ==> r == firstText.value
    ensures firstText.None? || firstText.value == "" ==> r == FallbackReply
  {
    if firstText.Some? && firstText.value != "" then firstText.value else FallbackReply
  }

  function Fail(details: string): Response {
    Response(500, Failure(FailureError, details))
  }

  /**
   * The POST handler: reading the body, the sessions query, the trades query
   * and the Gemini call, in that order; the first failure is thrown and the
   * catch turns it into a 500 response whose details are the error's message.
   */
  function HandleChat(
    request: Result<ChatRequest>,
    sessions: Result<Option<seq<string>>>,
    trades: Result<Option<seq<Trade>>>,
    gemini: GeminiOutcome): (r: Response)
    ensures r.status == 500 <==> request.Err? || sessions.Err? || trades.Err? || !gemini.Answered?
    ensures r.status == 500 ==> r.body.Failure? && r.body.error == FailureError
    ensures r.status != 500 ==> r.status == 200 && r.body.Reply? && r.body.message != ""
    ensures request.Err? ==> r.body == Failure(FailureError, request.message)
    ensures request.Ok? && sessions.Err? ==> r.body == Failure(FailureError, SessionsFailed)
    ensures request.Ok? && sessions.Ok? && trades.Err? ==> r.body == Failure(FailureError, TradesFailed)
    ensures request.Ok? && sessions.Ok? && trades.Ok? && (gemini.FetchThrew? || gemini.Unreadable?) ==>
              r.body == Failure(FailureError, gemini.error)
    ensures request.Ok? && sessions.Ok? && trades.Ok? && gemini.Answered? ==>
              r == Response(200, Reply(ReplyText(gemini.firstText)))
  {
    if request.Err? then Fail(request.message)
    else if sessions.Err? then Fail(SessionsFailed)
    else if trades.Err? then Fail(TradesFailed)
    else match gemini
      case FetchThrew(error) => Fail(error)
      case NotOk => Fail(GeminiFailed)
      case Unreadable(error) => Fail(error)
      case Answered(text) => Response(200, Reply(ReplyText(text)))
  }

  /** A non-2xx Gemini status after the body and both queries succeeded reports that call. */
  lemma GeminiFailureDetails(request: Result<ChatRequest>, sessions: Result<Option<seq<string>>>, trades: Result<Option<seq<Trade>>>)
    requires request.Ok? && sessions.Ok? && trades.Ok?
    ensures HandleChat(request, sessions, trades, NotOk) == Response(500, Failure(FailureError, GeminiFailed))
  {
  }

  /** Requests without `hasLiveData` (the client never sends it) get no live-data block. */
  lemma NoLiveDataWithoutFlag(req: ChatRequest, sessions: Option<seq<string>>, trades: Option<seq<Trade>>)
    requires req.hasLiveData.None?
    ensures Prompt(req, sessions, trades).liveData == ""
  {
  }
}
