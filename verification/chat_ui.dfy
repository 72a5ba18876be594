/**
 * The chat panel (`ChatInterface`): what a send does to the visible message
 * list before and after the router answers, the panel's own session-switch
 * shortcut, the text shown for an analysed trade screenshot, and clearing.
 *
 * React state updates are modelled as assignments to the panel's fields, in
 * the order the handler issues them. The session lookup, the router's
 * inputs and the screenshot analysis are parameters.
 */
module ChatUi {
  import opened Wrappers
  import opened Text
  import opened Patterns
  import Conversation
  import Router
  import MarketData
  import AiChat

  /** One bubble of the panel: who said it and what. */
  datatype Entry = Entry(role: Conversation.Role, content: string)

  // ---------------------------------------------------------------------------
  // The session-switch shortcut of handleSendMessage
  // ---------------------------------------------------------------------------

  /** `load\s+(?:the\s+)?(.+?)\s+session`, `switch\s+to\s+(.+)`, `open\s+(.+?)\s+session`, in this order. */
  const SwitchPatterns: seq<SessionPattern> := [PanelLoad, PanelSwitch, PanelOpen]

  /** Pattern `k` captures a name, the lookup finds a session for it, and a switch callback is present. */
  predicate SwitchesAt(input: string, k: nat, userId: string, lookup: (string, string) -> Option<string>, hasCallback: bool)
    requires k < |SwitchPatterns|
  {
    var m := CapturedName(input, SwitchPatterns[k]);
    m.Some? && Router.Truthy(lookup(m.value, userId)) && hasCallback
  }

  /**
   * The captured name and the session id of the first pattern at or after
   * `from` that switches, as the loop with its early exit finds them.
   */
  function ShortcutFrom(input: string, from: nat, userId: string, lookup: (string, string) -> Option<string>, hasCallback: bool)
    : Option<(string, string)>
    requires from <= |SwitchPatterns|
    decreases |SwitchPatterns| - from
  {
    if from == |SwitchPatterns| then None
    else
      if SwitchesAt(input, from, userId, lookup, hasCallback)
      then
        var name := CapturedName(input, SwitchPatterns[from]).value;
        Some((name, lookup(name, userId).value))
      else ShortcutFrom(input, from + 1, userId, lookup, hasCallback)
  }

  function Shortcut(input: string, userId: string, lookup: (string, string) -> Option<string>, hasCallback: bool)
    : Option<(string, string)>
  {
    ShortcutFrom(input, 0, userId, lookup, hasCallback)
  }

  /** Without the word "session", only `switch to …` can fire the shortcut. */
  lemma OnlySwitchToWithoutSessionWord(input: string, userId: string, lookup: (string, string) -> Option<string>, hasCallback: bool)
    requires !ContainsCI(input, "session")
    ensures Shortcut(input, userId, lookup, hasCallback)
            == (if SwitchesAt(input, 1, userId, lookup, hasCallback)
                then Some((CapturedName(input, PanelSwitch).value, lookup(CapturedName(input, PanelSwitch).value, userId).value))
                else None)
  {
    LazyNeedsSession(input, PanelLoad);
    LazyNeedsSession(input, PanelOpen);
  }

  /** The session id handed to `onSessionSwitch`, when the shortcut fires. */
  function ShortcutId(s: Option<(string, string)>): (r: Option<string>)
    ensures r.Some? <==> s.Some?
  {
    if s.Some? then Some(s.value.1) else None
  }

  /** The shortcut does not fire exactly when no pattern switches. */
  lemma ShortcutNoneIff(input: string, from: nat, userId: string, lookup: (string, string) -> Option<string>, hasCallback: bool)
    requires from <= |SwitchPatterns|
    ensures ShortcutFrom(input, from, userId, lookup, hasCallback).None?
            <==> forall k :: from <= k < |SwitchPatterns| ==> !SwitchesAt(input, k, userId, lookup, hasCallback)
  {
    if ShortcutFrom(input, from, userId, lookup, hasCallback).None? {
      forall k | from <= k < |SwitchPatterns|
        ensures !SwitchesAt(input, k, userId, lookup, hasCallback)
      {
        ShortcutNoneSkips(input, from, k, userId, lookup, hasCallback);
      }
    }
    if forall k :: from <= k < |SwitchPatterns| ==> !SwitchesAt(input, k, userId, lookup, hasCallback) {
      ShortcutNoneComplete(input, from, userId, lookup, hasCallback);
    }
  }

  lemma {:induction false} ShortcutNoneSkips(input: string, from: nat, k: nat, userId: string, lookup: (string, string) -> Option<string>, hasCallback: bool)
    requires from <= k < |SwitchPatterns|
    requires ShortcutFrom(input, from, userId, lookup, hasCallback).None?
    ensures !SwitchesAt(input, k, userId, lookup, hasCallback)
    decreases k - from
  {
    if from < k {
      ShortcutNoneSkips(input, from + 1, k, userId, lookup, hasCallback);
    }
  }

  lemma {:induction false} ShortcutNoneComplete(input: string, from: nat, userId: string, lookup: (string, string) -> Option<string>, hasCallback: bool)
    requires from <= |SwitchPatterns|
    requires forall k :: from <= k < |SwitchPatterns| ==> !SwitchesAt(input, k, userId, lookup, hasCallback)
    ensures ShortcutFrom(input, from, userId, lookup, hasCallback).None?
    decreases |SwitchPatterns| - from
  {
    if from < |SwitchPatterns| {
      assert !SwitchesAt(input, from, userId, lookup, hasCallback);
      ShortcutNoneComplete(input, from + 1, userId, lookup, hasCallback);
    }
  }

  /**
   * When the shortcut fires, it is with the name captured by the first
   * pattern that switches and with the id found for that name.
   */
  lemma {:induction false} ShortcutIsFirstSwitch(input: string, from: nat, userId: string, lookup: (string, string) -> Option<string>, hasCallback: bool)
    requires from <= |SwitchPatterns|
    requires ShortcutFrom(input, from, userId, lookup, hasCallback).Some?
    ensures var r := ShortcutFrom(input, from, userId, lookup, hasCallback).value;
            exists k :: from <= k < |SwitchPatterns|
              && SwitchesAt(input, k, userId, lookup, hasCallback)
              && (forall j :: from <= j < k ==> !SwitchesAt(input, j, userId, lookup, hasCallback))
              && CapturedName(input, SwitchPatterns[k]) == Some(r.0)
              && lookup(r.0, userId) == Some(r.1)
    decreases |SwitchPatterns| - from
  {
    var r := ShortcutFrom(input, from, userId, lookup, hasCallback).value;
    if SwitchesAt(input, from, userId, lookup, hasCallback) {
      assert CapturedName(input, SwitchPatterns[from]) == Some(r.0);
    } else {
      assert ShortcutFrom(input, from, userId, lookup, hasCallback) == ShortcutFrom(input, from + 1, userId, lookup, hasCallback);
      ShortcutIsFirstSwitch(input, from + 1, userId, lookup, hasCallback);
      var k :| from + 1 <= k < |SwitchPatterns|
              && SwitchesAt(input, k, userId, lookup, hasCallback)
              && (forall j :: from + 1 <= j < k ==> !SwitchesAt(input, j, userId, lookup, hasCallback))
              && CapturedName(input, SwitchPatterns[k]) == Some(r.0)
              && lookup(r.0, userId) == Some(r.1);
      assert forall j :: from <= j < k ==> !SwitchesAt(input, j, userId, lookup, hasCallback);
    }
  }

  /** Without an `onSessionSwitch` callback the shortcut never fires. */
  lemma NoCallbackNoSwitch(input: string, userId: string, lookup: (string, string) -> Option<string>)
    ensures Shortcut(input, userId, lookup, false) == None
  {
    ShortcutNoneIff(input, 0, userId, lookup, false);
  }

  /** `!inputMessage.trim() || !user || isLoading`: the send is ignored. */
  predicate Ignored(input: string, user: Option<string>, loading: bool) {
    Trim(input) == [] || user.None? || loading
  }

  const SwitchedHead := "✅ Switched to \""
  const SwitchedTail := "\" session! You can now view and analyze the trades from this session."

  /** The panel's own confirmation: it quotes the captured name. */
  function PanelSwitchReply(name: string): (r: string)
    ensures Contains(r, name)
  {
    ContainsSelf(name);
    ContainsInConcat(SwitchedHead, name, SwitchedTail, name);
    SwitchedHead + name + SwitchedTail
  }

  const Apology := "Sorry, I'm having trouble right now. Please try again in a moment! 🤖"

  /** The bubble shown for the router's answer: the reply, or the apology when it threw. */
  function AnswerEntry(sent: Result<string>): Entry {
    Entry(Conversation.Assistant, if sent.Ok? then sent.value else Apology)
  }

  // ---------------------------------------------------------------------------
  // Screenshot analysis text (handleImageUpload)
  // ---------------------------------------------------------------------------

  /** A field of an extracted trade: absent, a string, or a whole number. */
  datatype FieldValue = Absent | Str(s: string) | Num(n: int)

  datatype ExtractedTrade = ExtractedTrade(
    symbol: FieldValue, side: FieldValue, volume: FieldValue,
    entryPrice: FieldValue, exitPrice: FieldValue, profit: FieldValue)

  /** What `analyzeTradeScreenshot` gave: an exception, or a result whose `trades` may be missing. */
  datatype AnalysisOutcome = AnalysisFailed | Analyzed(trades: Option<seq<ExtractedTrade>>)

  /** The values `||` skips: missing, the empty string and zero. */
  predicate Falsy(f: FieldValue) {
    f.Absent? || f == Str("") || f == Num(0)
  }

  /** `String(n)` for a whole number. */
  function IntToString(n: int): (r: string)
    ensures |r| >= 1 && (r[0] == '-' || IsDigit(r[0]))
  {
    if n < 0 then "-" + NatToString(-n) else NatToString(n)
  }

  const NotDetected := "Not detected"

  /** `${value || 'Not detected'}`. */
  function Render(f: FieldValue): (r: string)
    ensures r == NotDetected <==> Falsy(f) || f == Str(NotDetected)
  {
    match f
    case Absent => NotDetected
    case Str(s) => if s == "" then NotDetected else s
    case Num(n) =>
      if n == 0 then NotDetected
      else
        var t := IntToString(n);
        assert t[0] != NotDetected[0];
        t
  }

  /** The lines of the block for the trade at 0-based `index`: its 1-based number, then one line per field. */
  function BlockLines(index: nat, t: ExtractedTrade): seq<string> {
    [ "**Trade " + NatToString(index + 1) + ":**\n",
      "• Symbol: " + Render(t.symbol) + "\n",
      "• Side: " + Render(t.side) + "\n",
      "• Volume: " + Render(t.volume) + "\n",
      "• Entry: " + Render(t.entryPrice) + "\n",
      "• Exit: " + Render(t.exitPrice) + "\n",
      "• P/L: " + Render(t.profit) + "\n\n" ]
  }

  function TradeBlock(index: nat, t: ExtractedTrade): string {
    Join(BlockLines(index, t), "")
  }

  /** The blocks of all trades, in order. */
  function TradeBlocks(trades: seq<ExtractedTrade>): string
    decreases |trades|
  {
    if trades == [] then ""
    else TradeBlocks(trades[..|trades| - 1]) + TradeBlock(|trades| - 1, trades[|trades| - 1])
  }

  const AnalysisHeader := "📊 **Trade Screenshot Analysis:**\n\n"
  const AutoFillOffer := "💡 I can help you add these trades to your session! Would you like me to auto-fill the trade form with this data?"
  const NoTradesTips :=
    "❌ I couldn't extract clear trade data from this screenshot. Here are some tips for better results:\n\n"
    + "• Ensure the screenshot shows clear profit/loss numbers\n"
    + "• Make sure currency pairs or symbols are visible\n"
    + "• Check that entry/exit prices are readable\n"
    + "• Try cropping to focus on the trade details\n\n"
    + "Feel free to try again with a clearer image! 📸"
  const AnalysisError := "❌ I had trouble analyzing that screenshot. Please make sure the image shows clear trading information and try again! The image should contain visible:\n\n• Currency pairs or symbols\n• Entry and exit prices\n• Profit/loss amounts\n• Position sizes\n\nTry uploading a clearer screenshot! 📷"

  /** The text for a result: every trade's block and the offer, or the tips when there are none. */
  function AnalysisText(trades: seq<ExtractedTrade>): string {
    if |trades| > 0 then AnalysisHeader + TradeBlocks(trades) + AutoFillOffer
    else AnalysisHeader + NoTradesTips
  }

  /** The text shown for an analysis outcome; a missing `trades` list is treated as no trades. */
  function AnalysisReply(outcome: AnalysisOutcome): string {
    match outcome
    case AnalysisFailed => AnalysisError
    case Analyzed(trades) => AnalysisText(if trades.Some? then trades.value else [])
  }

  /** The `forEach` with `+=`: appends one block per trade, in order. */
  method AppendBlocks(prefix: string, trades: seq<ExtractedTrade>) returns (text: string)
    ensures text == prefix + TradeBlocks(trades)
  {
    text := prefix;
    var i := 0;
    while i < |trades|
      invariant 0 <= i <= |trades|
      invariant text == prefix + TradeBlocks(trades[..i])
    {
      var block := TradeBlock(i, trades[i]);
      TradeBlocksSnoc(trades, i);
      AppendAssoc(prefix, TradeBlocks(trades[..i]), block);
      text := text + block;
      i := i + 1;
    }
    assert trades[..|trades|] == trades;
  }

  /** The response text: the header, then the blocks and the offer, or the tips when there are no trades. */
  method BuildAnalysisText(trades: seq<ExtractedTrade>) returns (text: string)
    ensures text == AnalysisText(trades)
  {
    if |trades| > 0 {
      text := AppendBlocks(AnalysisHeader, trades);
      text := text + AutoFillOffer;
    } else {
      text := AnalysisHeader + NoTradesTips;
    }
  }

  /** Taking one more trade appends exactly that trade's block. */
  lemma TradeBlocksSnoc(trades: seq<ExtractedTrade>, i: nat)
    requires i < |trades|
    ensures TradeBlocks(trades[..i + 1]) == TradeBlocks(trades[..i]) + TradeBlock(i, trades[i])
  {
    assert trades[..i + 1][..i] == trades[..i];
  }

  /** Every trade's block, with its 1-based number, appears in the blocks. */
  lemma {:induction false} TradeBlocksContain(trades: seq<ExtractedTrade>, k: nat)
    requires k < |trades|
    ensures Contains(TradeBlocks(trades), TradeBlock(k, trades[k]))
    decreases |trades|
  {
    var init := trades[..|trades| - 1];
    var last := TradeBlock(|trades| - 1, trades[|trades| - 1]);
    assert TradeBlocks(trades) == TradeBlocks(init) + last;
    if k == |trades| - 1 {
      ContainsSelf(last);
      ContainsRight(TradeBlocks(init), last, last);
    } else {
      TradeBlocksContain(init, k);
      assert init[k] == trades[k];
      ContainsLeft(TradeBlocks(init), last, TradeBlock(k, trades[k]));
    }
  }

  /** A result with trades shows each of them; a result without shows the tips. */
  lemma AnalysisShowsEveryTrade(trades: seq<ExtractedTrade>, k: nat)
    requires k < |trades|
    ensures Contains(AnalysisText(trades), TradeBlock(k, trades[k]))
  {
    TradeBlocksContain(trades, k);
    ContainsInConcat(AnalysisHeader, TradeBlocks(trades), AutoFillOffer, TradeBlock(k, trades[k]));
  }

  /** A falsy P/L, a zero included, reads "Not detected" in its block. */
  lemma ZeroProfitNotDetected(index: nat, t: ExtractedTrade)
    requires Falsy(t.profit)
    ensures Contains(TradeBlock(index, t), "• P/L: Not detected\n\n")
  {
    var lines := BlockLines(index, t);
    JoinContainsPart(lines, "", 6);
    assert Render(t.profit) == NotDetected;
    assert lines[6] == "• P/L: Not detected\n\n";
  }

  /** Each block opens with its trade's 1-based number. */
  lemma BlockNumbered(index: nat, t: ExtractedTrade)
    ensures StartsWith(TradeBlock(index, t), "**Trade " + NatToString(index + 1) + ":**\n")
  {
    var lines := BlockLines(index, t);
    var head, rest := lines[0], Join(lines[1..], "");
    assert TradeBlock(index, t) == head + "" + rest;
    assert (head + "" + rest)[0..|head|] == head;
    MatchesAtHasAt(TradeBlock(index, t), 0, head);
  }

  /** Only the first extracted trade is handed to `onTradeDataExtracted`. */
  function Forwarded(outcome: AnalysisOutcome, hasCallback: bool): (r: Option<ExtractedTrade>)
    ensures r.Some? <==> hasCallback && outcome.Analyzed? && outcome.trades.Some? && |outcome.trades.value| > 0
    ensures r.Some? ==> r.value == outcome.trades.value[0]
  {
    if hasCallback && outcome.Analyzed? && outcome.trades.Some? && |outcome.trades.value| > 0
    then Some(outcome.trades.value[0])
    else None
  }

  // ---------------------------------------------------------------------------
  // The panel
  // ---------------------------------------------------------------------------

  class ChatPanel {
    var messages: seq<Entry>
    var inputMessage: string
    var isLoading: bool
    var showImageUpload: bool

    constructor ()
      ensures messages == [] && inputMessage == "" && !isLoading && !showImageUpload
    {
      messages := [];
      inputMessage := "";
      isLoading := false;
      showImageUpload := false;
    }

    /**
     * The pattern loop of `handleSendMessage`: the first pattern that finds a
     * session (with a callback present) adds the confirmation and stops the
     * loop; the session id handed to `onSessionSwitch` is returned.
     */
    method SwitchShortcut(input: string, userId: string, lookup: (string, string) -> Option<string>, hasCallback: bool)
      returns (switchedTo: Option<string>)
      modifies this
      ensures switchedTo == ShortcutId(Shortcut(input, userId, lookup, hasCallback))
      ensures messages == old(messages) + (if Shortcut(input, userId, lookup, hasCallback).Some?
                             then [Entry(Conversation.Assistant, PanelSwitchReply(Shortcut(input, userId, lookup, hasCallback).value.0))]
                             else [])
      ensures inputMessage == old(inputMessage) && isLoading == old(isLoading) && showImageUpload == old(showImageUpload)
    {
      switchedTo := None;
      var i := 0;
      while i < |SwitchPatterns|
        invariant 0 <= i <= |SwitchPatterns|
        invariant Shortcut(input, userId, lookup, hasCallback) == ShortcutFrom(input, i, userId, lookup, hasCallback)
        invariant messages == old(messages) && switchedTo.None?
        invariant inputMessage == old(inputMessage) && isLoading == old(isLoading) && showImageUpload == old(showImageUpload)
      {
        var m := CapturedName(input, SwitchPatterns[i]);
        if m.Some? {
          var sessionName := m.value;
          var sessionId := lookup(sessionName, userId);
          if Router.Truthy(sessionId) && hasCallback {
            switchedTo := Some(sessionId.value);
            messages := messages + [Entry(Conversation.Assistant, PanelSwitchReply(sessionName))];
            return;
          }
        }
        i := i + 1;
      }
    }

    /**
     * The part of `handleSendMessage` after the trimmed input is shown: the
     * switch shortcut, and the router when the shortcut does not fire.
     */
    method Answer(
      cm: Conversation.ConversationManager, input: string, userId: string, currentSessionId: Option<string>, now: int,
      roll: real, followRoll: real,
      fetch: MarketData.Detection -> Router.FetchOutcome, lookup: (string, string) -> Option<string>,
      backend: AiChat.ChatRequest -> Result<string>, hasCallback: bool)
      returns (switchedTo: Option<string>, sent: Option<Result<string>>)
      requires 0.0 <= roll < 1.0
      modifies this, cm
      ensures switchedTo == ShortcutId(Shortcut(input, userId, lookup, hasCallback))
      ensures switchedTo.Some? ==>
                && sent.None? && cm.contexts == old(cm.contexts)
                && messages == old(messages)
                   + [Entry(Conversation.Assistant, PanelSwitchReply(Shortcut(input, userId, lookup, hasCallback).value.0))]
      ensures switchedTo.None? ==>
                && sent.Some? && messages == old(messages) + [AnswerEntry(sent.value)]
                && Router.SendRecorded(old(cm.contexts), cm.contexts, input, userId, currentSessionId, now, roll, followRoll, fetch, lookup, backend, sent.value)
      ensures inputMessage == old(inputMessage) && isLoading == old(isLoading) && showImageUpload == old(showImageUpload)
    {
      sent := None;
      switchedTo := SwitchShortcut(input, userId, lookup, hasCallback);
      if switchedTo.None? {
        assert messages == old(messages) && cm.contexts == old(cm.contexts);
        var reply := AskRouter(cm, input, userId, currentSessionId, now, roll, followRoll, fetch, lookup, backend);
        sent := Some(reply);
      }
    }

    /** The assistant bubble for the router's answer, or the apology when the call threw. */
    method ShowAnswer(sent: Result<string>)
      modifies this
      ensures messages == old(messages) + [AnswerEntry(sent)]
      ensures inputMessage == old(inputMessage) && isLoading == old(isLoading) && showImageUpload == old(showImageUpload)
    {
      messages := messages + [AnswerEntry(sent)];
    }

    /** The `sendChatMessage` call followed by the bubble for its outcome. */
    method AskRouter(
      cm: Conversation.ConversationManager, input: string, userId: string, currentSessionId: Option<string>, now: int,
      roll: real, followRoll: real,
      fetch: MarketData.Detection -> Router.FetchOutcome, lookup: (string, string) -> Option<string>,
      backend: AiChat.ChatRequest -> Result<string>)
      returns (sent: Result<string>)
      requires 0.0 <= roll < 1.0
      modifies this, cm
      ensures messages == old(messages) + [AnswerEntry(sent)]
      ensures Router.SendRecorded(old(cm.contexts), cm.contexts, input, userId, currentSessionId, now, roll, followRoll, fetch, lookup, backend, sent)
      ensures inputMessage == old(inputMessage) && isLoading == old(isLoading) && showImageUpload == old(showImageUpload)
    {
      sent := Router.SendChatMessage(cm, input, userId, currentSessionId, now, roll, followRoll, fetch, lookup, backend);
      ShowAnswer(sent);
    }

    /**
     * `handleSendMessage`. A blank input, a signed-out user or a send in
     * progress changes nothing. Otherwise the trimmed input is shown, the input
     * box is cleared, and the answer follows; the panel is no longer loading
     * afterwards. `switchedTo` is the id handed to `onSessionSwitch`; `sent` is
     * what `sendChatMessage` returned, when it was called.
     */
    method HandleSendMessage(
      cm: Conversation.ConversationManager, user: Option<string>, currentSessionId: Option<string>, now: int,
      roll: real, followRoll: real,
      fetch: MarketData.Detection -> Router.FetchOutcome, lookup: (string, string) -> Option<string>,
      backend: AiChat.ChatRequest -> Result<string>, hasCallback: bool)
      returns (switchedTo: Option<string>, sent: Option<Result<string>>)
      requires 0.0 <= roll < 1.0
      modifies this, cm
      ensures Ignored(old(inputMessage), user, old(isLoading)) ==>
                && messages == old(messages) && inputMessage == old(inputMessage) && isLoading == old(isLoading)
                && cm.contexts == old(cm.contexts) && switchedTo.None? && sent.None?
      ensures !Ignored(old(inputMessage), user, old(isLoading)) ==>
                var input := Trim(old(inputMessage));
                && inputMessage == "" && !isLoading
                && switchedTo == ShortcutId(Shortcut(input, user.value, lookup, hasCallback))
                && (switchedTo.Some? ==>
                      && sent.None? && cm.contexts == old(cm.contexts)
                      && messages == old(messages) + [Entry(Conversation.User, input)]
                         + [Entry(Conversation.Assistant, PanelSwitchReply(Shortcut(input, user.value, lookup, hasCallback).value.0))])
                && (switchedTo.None? ==>
                      && sent.Some?
                      && messages == old(messages) + [Entry(Conversation.User, input)] + [AnswerEntry(sent.value)]
                      && Router.SendRecorded(old(cm.contexts), cm.contexts, input, user.value, currentSessionId, now, roll, followRoll, fetch, lookup, backend, sent.value))
      ensures showImageUpload == old(showImageUpload)
    {
      switchedTo := None;
      sent := None;
      if Ignored(inputMessage, user, isLoading) {
        return;
      }
      var currentInput := Trim(inputMessage);
      messages := messages + [Entry(Conversation.User, currentInput)];
      inputMessage := "";
      isLoading := true;
      switchedTo, sent := Answer(cm, currentInput, user.value, currentSessionId, now, roll, followRoll, fetch, lookup, backend, hasCallback);
      isLoading := false;
    }

    /**
     * `handleImageUpload`: shows the upload, then the analysis text (or the
     * error text when the analysis threw), and hides the upload area. The
     * result is the trade handed to `onTradeDataExtracted`, if any.
     */
    method HandleImageUpload(fileName: string, outcome: AnalysisOutcome, hasCallback: bool)
      returns (forwarded: Option<ExtractedTrade>)
      modifies this
      ensures messages == old(messages) + [
                Entry(Conversation.User, "📷 Uploaded trading screenshot: " + fileName),
                Entry(Conversation.Assistant, AnalysisReply(outcome))]
      ensures forwarded == Forwarded(outcome, hasCallback)
      ensures !isLoading && !showImageUpload && inputMessage == old(inputMessage)
    {
      isLoading := true;
      messages := messages + [Entry(Conversation.User, "📷 Uploaded trading screenshot: " + fileName)];
      forwarded := None;
      match outcome {
        case AnalysisFailed =>
          messages := messages + [Entry(Conversation.Assistant, AnalysisError)];
        case Analyzed(trades) =>
          var list := if trades.Some? then trades.value else [];
          var responseContent := BuildAnalysisText(list);
          if |list| > 0 && hasCallback {
            forwarded := Some(list[0]);
          }
          messages := messages + [Entry(Conversation.Assistant, responseContent)];
      }
      isLoading := false;
      showImageUpload := false;
    }

    /** `clearChat`: empties the message list and nothing else. */
    method ClearChat()
      modifies this
      ensures messages == []
      ensures inputMessage == old(inputMessage) && isLoading == old(isLoading) && showImageUpload == old(showImageUpload)
    {
      messages := [];
    }
  }
}
