/**
 * Per-user conversation memory (`ConversationManager`).
 *
 * The manager keeps a map from user id to a context record. Every public
 * operation first fetches the user's context, creating an empty one on first
 * use, so even the reading operations may add an entry to the map. The clock
 * (`new Date()`) is the parameter `now`, a time in milliseconds.
 */
module Conversation {
  import opened Wrappers
  import opened Text

  datatype Role = User | Assistant

  datatype Message = Message(role: Role, content: string, timestamp: int)

  datatype Tone = Casual | Professional | Friendly

  datatype Context = Context(
    messages: seq<Message>,
    usedJokes: seq<string>,
    tone: Tone,
    topics: seq<string>,
    sessionStartTime: int)

  datatype Mood = Excited | Frustrated | Curious | Neutral

  datatype Stats = Stats(
    messageCount: nat,
    sessionDurationMinutes: int,
    jokesTold: nat,
    lastActivity: Option<int>)

  /** How many messages a context keeps. */
  const MessageCap: nat := 20

  /** How many used joke ids a context keeps. */
  const UsedJokeCap: nat := 15

  function RoleName(r: Role): string {
    match r
    case User => "user"
    case Assistant => "assistant"
  }

  /** The context created for a user on first use. */
  function NewContext(now: int): Context {
    Context([], [], Friendly, [], now)
  }

  /** What `getContext` yields for `userId`: the stored context, or a new one. */
  function ContextOf(contexts: map<string, Context>, userId: string, now: int): (c: Context)
    ensures userId in contexts ==> c == contexts[userId]
    ensures userId !in contexts ==> c.messages == [] && c.usedJokes == [] && c.sessionStartTime == now
  {
    if userId in contexts then contexts[userId] else NewContext(now)
  }

  /** No context other than `userId`'s was added, removed or changed. */
  ghost predicate OthersUnchanged(before: map<string, Context>, after: map<string, Context>, userId: string) {
    forall u :: u != userId ==> (u in after <==> u in before) && (u in after ==> after[u] == before[u])
  }

  /**
   * `push(x)` followed by `slice(-cap)` when the list has grown past `cap`:
   * the newest `min(cap, |s| + 1)` entries of `s + [x]`, oldest first.
   */
  function PushCapped<T>(s: seq<T>, x: T, cap: nat): (r: seq<T>)
    requires cap > 0
    ensures |r| == if |s| + 1 <= cap then |s| + 1 else cap
    ensures r == (s + [x])[|s| + 1 - |r|..]
    ensures r[|r| - 1] == x
  {
    var t := s + [x];
    if |t| > cap then SliceFrom(t, -(cap as int)) else t
  }

  /** An element pushed while absent is not among the entries kept before it. */
  lemma PushCappedFresh<T>(s: seq<T>, x: T, cap: nat)
    requires cap > 0 && x !in s
    ensures var r := PushCapped(s, x, cap); forall i :: 0 <= i < |r| - 1 ==> r[i] != x
  {
    var r := PushCapped(s, x, cap);
    var k := |s| + 1 - |r|;
    forall i | 0 <= i < |r| - 1
      ensures r[i] != x
    {
      assert r[i] == (s + [x])[k + i] == s[k + i];
    }
  }

  // ---------------------------------------------------------------------------
  // getRecentMessages
  // ---------------------------------------------------------------------------

  /** One line of the rendered log: `role: content`. */
  function Line(m: Message): string {
    RoleName(m.role) + ": " + m.content
  }

  function Lines(msgs: seq<Message>): (r: seq<string>)
    ensures |r| == |msgs|
    ensures forall i :: 0 <= i < |msgs| ==> r[i] == Line(msgs[i])
  {
    seq(|msgs|, i requires 0 <= i < |msgs| => Line(msgs[i]))
  }

  /**
   * `messages.slice(-count)`: for a positive count the newest `count` messages,
   * for 0 all of them (`slice(-0)` is `slice(0)`), and for a negative count all
   * but the first `-count`.
   */
  function RecentWindow(msgs: seq<Message>, count: int): (r: seq<Message>)
    ensures count > 0 ==> r == msgs[(if |msgs| <= count then 0 else |msgs| - count)..]
    ensures count == 0 ==> r == msgs
    ensures count < 0 ==> r == msgs[(if -count <= |msgs| then -count else |msgs|)..]
  {
    SliceFrom(msgs, -count)
  }

  /** The text `getRecentMessages` returns: the window rendered line by line, oldest first. */
  function RenderRecent(msgs: seq<Message>, count: int): string {
    Join(Lines(RecentWindow(msgs, count)), "\n")
  }

  /** An empty log renders as the empty string, whatever the count. */
  lemma RenderRecentEmpty(count: int)
    ensures RenderRecent([], count) == ""
  {
  }

  /** A word in the newest message shows up in any window of at least one message. */
  lemma NewestMessageRendered(msgs: seq<Message>, count: int, w: string)
    requires |msgs| > 0 && count >= 0
    requires Contains(msgs[|msgs| - 1].content, w)
    ensures Contains(RenderRecent(msgs, count), w)
  {
    var window := RecentWindow(msgs, count);
    var last := msgs[|msgs| - 1];
    assert window[|window| - 1] == last;
    ContainsInConcat(RoleName(last.role) + ": ", last.content, [], w);
    assert RoleName(last.role) + ": " + last.content + [] == Line(last);
    JoinContainsPart(Lines(window), "\n", |window| - 1);
    ContainsTransitive(RenderRecent(msgs, count), Line(last), w);
  }

  // ---------------------------------------------------------------------------
  // detectUserMood
  // ---------------------------------------------------------------------------

  const ExcitedMarkers: seq<string> := ["!", "awesome", "great", "amazing", "excellent", "love", "perfect"]

  const FrustratedMarkers: seq<string> :=
    ["damn", "shit", "fuck", "stupid", "hate", "terrible", "awful", "bad", "wrong", "error", "fail"]

  const CuriousMarkers: seq<string> :=
    ["?", "how", "what", "why", "when", "where", "explain", "tell me", "show me", "help"]

  /** An alternation of literal words, as `/a|b|c/.test(text)` evaluates it. */
  predicate ContainsAny(text: string, words: seq<string>) {
    exists i | 0 <= i < |words| :: Contains(text, words[i])
  }

  /** The contents of the user-role messages, in order. */
  function UserContents(msgs: seq<Message>): (r: seq<string>)
    ensures |r| <= |msgs|
  {
    if msgs == [] then []
    else if msgs[0].role == User then [msgs[0].content] + UserContents(msgs[1..])
    else UserContents(msgs[1..])
  }

  lemma {:induction false} UserContentsConcat(a: seq<Message>, b: seq<Message>)
    ensures UserContents(a + b) == UserContents(a) + UserContents(b)
  {
    if a != [] {
      assert (a + b)[1..] == a[1..] + b;
      UserContentsConcat(a[1..], b);
    } else {
      assert a + b == b;
    }
  }

  function LowerAll(parts: seq<string>): (r: seq<string>)
    ensures |r| == |parts|
    ensures forall i :: 0 <= i < |parts| ==> r[i] == Lower(parts[i])
  {
    seq(|parts|, i requires 0 <= i < |parts| => Lower(parts[i]))
  }

  /** The text the mood is read from: the last three user messages, lower-cased, joined by a space. */
  function MoodText(msgs: seq<Message>): string {
    Join(LowerAll(SliceFrom(UserContents(msgs), -3)), " ")
  }

  /** The indicator checks, in the source's order: excited, frustrated, curious. */
  function MoodOfText(text: string): Mood {
    if ContainsAny(text, ExcitedMarkers) then Excited
    else if ContainsAny(text, FrustratedMarkers) then Frustrated
    else if ContainsAny(text, CuriousMarkers) then Curious
    else Neutral
  }

  function MoodOf(msgs: seq<Message>): Mood {
    MoodOfText(MoodText(msgs))
  }

  /** Assistant messages never affect the mood. */
  lemma MoodIgnoresAssistant(msgs: seq<Message>, content: string, t: int)
    ensures MoodOf(msgs + [Message(Assistant, content, t)]) == MoodOf(msgs)
  {
    UserContentsConcat(msgs, [Message(Assistant, content, t)]);
    assert UserContents([Message(Assistant, content, t)]) == [];
    assert UserContents(msgs) + [] == UserContents(msgs);
  }

  /** Once three user messages follow, anything older no longer affects the mood. */
  lemma MoodReadsLastThreeUserMessages(older: seq<Message>, recent: seq<Message>)
    requires |UserContents(recent)| >= 3
    ensures MoodOf(older + recent) == MoodOf(recent)
  {
    UserContentsConcat(older, recent);
    var a, b := UserContents(older), UserContents(recent);
    assert (a + b)[|a + b| - 3..] == b[|b| - 3..];
    assert SliceFrom(a + b, -3) == SliceFrom(b, -3);
    assert MoodText(older + recent) == MoodText(recent);
  }

  /** Any `!` among the last three user messages makes the mood excited, even beside a `?`. */
  lemma ExclamationWins(msgs: seq<Message>, k: nat)
    requires var users := SliceFrom(UserContents(msgs), -3); k < |users| && Contains(users[k], "!")
    ensures MoodOf(msgs) == Excited
  {
    var users := SliceFrom(UserContents(msgs), -3);
    ContainsLower(users[k], "!");
    assert Lower("!") == "!";
    JoinContainsPart(LowerAll(users), " ", k);
    ContainsTransitive(MoodText(msgs), Lower(users[k]), "!");
    assert Contains(MoodText(msgs), ExcitedMarkers[0]);
  }

  /** The example history `["this is amazing!!", "love it"]` reads as excited. */
  lemma ExcitedExample(t: int)
    ensures MoodOf([Message(User, "this is amazing!!", t), Message(User, "love it", t)]) == Excited
  {
    var msgs := [Message(User, "this is amazing!!", t), Message(User, "love it", t)];
    assert UserContents(msgs) == ["this is amazing!!", "love it"];
    assert SliceFrom(UserContents(msgs), -3) == UserContents(msgs);
    assert "this is amazing!!"[15..16] == "!";
    ContainsAt("this is amazing!!", 15, "!");
    ExclamationWins(msgs, 0);
  }

  /** A text in which no marker that fits occurs matches none of them. */
  lemma MissesAll(text: string, words: seq<string>)
    requires forall i :: 0 <= i < |words| && |words[i]| <= |text| ==> !Contains(text, words[i])
    ensures !ContainsAny(text, words)
  {
    forall i | 0 <= i < |words|
      ensures !Contains(text, words[i])
    {
      if Contains(text, words[i]) {
        ContainsLength(text, words[i]);
      }
    }
  }

  /** A character that does not occur in the text is not contained in it. */
  lemma NoChar(text: string, c: char)
    requires forall j :: 0 <= j < |text| ==> text[j] != c
    ensures !Contains(text, [c])
  {
    ContainsSpec(text, [c]);
    forall j | 0 <= j < |text|
      ensures !HasAt(text, j, [c])
    {
      assert text[j..j + 1][0] == text[j];
    }
  }

  /** A single lower-case user message is the whole mood text. */
  lemma SingleMessageText(w: string, t: int)
    requires Lower(w) == w
    ensures MoodText([Message(User, w, t)]) == w
  {
    assert UserContents([Message(User, w, t)]) == [w];
    assert SliceFrom([w], -3) == [w];
  }

  /** The example history `["bad"]` has no excited marker and reads as frustrated. */
  lemma FrustratedExample(t: int)
    ensures MoodOf([Message(User, "bad", t)]) == Frustrated
  {
    var text := "bad";
    assert Lower(text) == text;
    SingleMessageText(text, t);
    NoChar(text, '!');
    MissesAll(text, ExcitedMarkers);
    ContainsSelf(text);
    assert Contains(text, FrustratedMarkers[7]);
  }

  /** The example history `["why"]` has neither an excited nor a frustrated marker and reads as curious. */
  lemma CuriousExample(t: int)
    ensures MoodOf([Message(User, "why", t)]) == Curious
  {
    var text := "why";
    assert Lower(text) == text;
    SingleMessageText(text, t);
    NoChar(text, '!');
    MissesAll(text, ExcitedMarkers);
    assert !Contains(text, "bad") by {
      ContainsSpec(text, "bad");
      assert !HasAt(text, 0, "bad");
    }
    MissesAll(text, FrustratedMarkers);
    ContainsSelf(text);
    assert Contains(text, CuriousMarkers[3]);
  }

  /** The example history `["ok"]` has no marker at all and reads as neutral. */
  lemma NeutralExample(t: int)
    ensures MoodOf([Message(User, "ok", t)]) == Neutral
  {
    var text := "ok";
    assert Lower(text) == text;
    SingleMessageText(text, t);
    NoChar(text, '!');
    NoChar(text, '?');
    MissesAll(text, ExcitedMarkers);
    MissesAll(text, FrustratedMarkers);
    MissesAll(text, CuriousMarkers);
  }

  // ---------------------------------------------------------------------------
  // getConversationStats and getResponseSuggestions
  // ---------------------------------------------------------------------------

  /** `getConversationStats` for a context at time `now`. */
  function StatsOf(c: Context, now: int): (s: Stats)
    ensures s.messageCount == |c.messages| && s.jokesTold == |c.usedJokes|
    ensures s.lastActivity.None? <==> c.messages == []
    ensures s.lastActivity.Some? ==> s.lastActivity.value == c.messages[|c.messages| - 1].timestamp
    ensures s.sessionDurationMinutes * 60000 <= now - c.sessionStartTime < (s.sessionDurationMinutes + 1) * 60000
  {
    Stats(
      |c.messages|,
      (now - c.sessionStartTime) / (1000 * 60),
      |c.usedJokes|,
      if |c.messages| > 0 then Some(c.messages[|c.messages| - 1].timestamp) else None)
  }

  const LongChatSuggestion := "We've been chatting for a while! How can I help you further? 💬"

  const JokesSuggestion := "You seem to enjoy the jokes! 😄"

  function MoodSuggestions(mood: Mood): (r: seq<string>)
    ensures |r| == if mood == Neutral then 0 else 2
  {
    match mood
    case Excited => ["That's fantastic! 🎉", "I love your enthusiasm! 😄"]
    case Frustrated =>
      ["I understand that can be frustrating. Let me help! 🤝", "Don't worry, we'll figure this out together! 💪"]
    case Curious => ["Great question! Let me explain... 🤔", "I'd be happy to help you understand that! 📚"]
    case Neutral => []
  }

  lemma MoodSuggestionsDistinct(mood: Mood)
    ensures LongChatSuggestion !in MoodSuggestions(mood)
    ensures JokesSuggestion !in MoodSuggestions(mood)
    ensures LongChatSuggestion != JokesSuggestion
  {
    assert |LongChatSuggestion| == 62 && |JokesSuggestion| == 30;
    match mood
    case Excited =>
      assert |"That's fantastic! 🎉"| == 19 && |"I love your enthusiasm! 😄"| == 25;
    case Frustrated =>
      assert |"I understand that can be frustrating. Let me help! 🤝"| == 52;
      assert |"Don't worry, we'll figure this out together! 💪"| == 46;
    case Curious =>
      assert |"Great question! Let me explain... 🤔"| == 35;
      assert |"I'd be happy to help you understand that! 📚"| == 43;
    case Neutral =>
  }

  /**
   * `getResponseSuggestions` from the mood and the statistics: two mood lines
   * unless neutral, the long-chat line iff more than 10 messages, and the jokes
   * line iff more than 3 jokes.
   */
  function Suggestions(mood: Mood, stats: Stats): (r: seq<string>)
    ensures |r| == (if mood == Neutral then 0 else 2)
                   + (if stats.messageCount > 10 then 1 else 0)
                   + (if stats.jokesTold > 3 then 1 else 0)
    ensures LongChatSuggestion in r <==> stats.messageCount > 10
    ensures JokesSuggestion in r <==> stats.jokesTold > 3
  {
    var moodLines := MoodSuggestions(mood);
    var longLine := if stats.messageCount > 10 then [LongChatSuggestion] else [];
    var jokesLine := if stats.jokesTold > 3 then [JokesSuggestion] else [];
    MoodSuggestionsDistinct(mood);
    assert LongChatSuggestion !in jokesLine && JokesSuggestion !in longLine;
    moodLines + longLine + jokesLine
  }

  // ---------------------------------------------------------------------------
  // The manager
  // ---------------------------------------------------------------------------

  class ConversationManager {
    var contexts: map<string, Context>

    constructor ()
      ensures contexts == map[]
    {
      contexts := map[];
    }

    /** `getContext`: creates an empty context on first use and returns the stored one afterwards. */
    method GetContext(userId: string, now: int) returns (c: Context)
      modifies this
      ensures c == ContextOf(old(contexts), userId, now)
      ensures contexts == old(contexts)[userId := c]
      ensures userId in old(contexts) ==> contexts == old(contexts)
      ensures OthersUnchanged(old(contexts), contexts, userId)
    {
      if userId !in contexts {
        contexts := contexts[userId := NewContext(now)];
      }
      c := contexts[userId];
    }

    /** `addMessage`: appends to the log and keeps only the newest 20 entries. */
    method AddMessage(userId: string, role: Role, content: string, now: int)
      modifies this
      ensures var c := ContextOf(old(contexts), userId, now);
              contexts == old(contexts)[userId := c.(messages := PushCapped(c.messages, Message(role, content, now), MessageCap))]
      ensures |contexts[userId].messages| <= MessageCap
      ensures OthersUnchanged(old(contexts), contexts, userId)
    {
      var c := GetContext(userId, now);
      var messages := c.messages + [Message(role, content, now)];
      if |messages| > 20 {
        messages := SliceFrom(messages, -20);
      }
      contexts := contexts[userId := c.(messages := messages)];
    }

    /** `getRecentMessages`: the newest `count` messages as `role: content` lines. */
    method GetRecentMessages(userId: string, count: int, now: int) returns (text: string)
      modifies this
      ensures text == RenderRecent(ContextOf(old(contexts), userId, now).messages, count)
      ensures contexts == old(contexts)[userId := ContextOf(old(contexts), userId, now)]
      ensures userId in old(contexts) ==> contexts == old(contexts)
    {
      var c := GetContext(userId, now);
      var recent := SliceFrom(c.messages, -count);
      text := Join(Lines(recent), "\n");
    }

    /** `markJokeUsed`: appends the id (duplicates allowed) and keeps only the newest 15. */
    method MarkJokeUsed(userId: string, jokeId: string, now: int)
      modifies this
      ensures var c := ContextOf(old(contexts), userId, now);
              contexts == old(contexts)[userId := c.(usedJokes := PushCapped(c.usedJokes, jokeId, UsedJokeCap))]
      ensures |contexts[userId].usedJokes| <= UsedJokeCap
      ensures OthersUnchanged(old(contexts), contexts, userId)
    {
      var c := GetContext(userId, now);
      var used := c.usedJokes + [jokeId];
      if |used| > 15 {
        used := SliceFrom(used, -15);
      }
      contexts := contexts[userId := c.(usedJokes := used)];
    }

    /** `getUsedJokes`. */
    method GetUsedJokes(userId: string, now: int) returns (used: seq<string>)
      modifies this
      ensures used == ContextOf(old(contexts), userId, now).usedJokes
      ensures contexts == old(contexts)[userId := ContextOf(old(contexts), userId, now)]
      ensures userId in old(contexts) ==> contexts == old(contexts)
    {
      var c := GetContext(userId, now);
      used := c.usedJokes;
    }

    /** `clearUsedJokes`: empties the used-joke list and leaves the messages alone. */
    method ClearUsedJokes(userId: string, now: int)
      modifies this
      ensures var c := ContextOf(old(contexts), userId, now);
              contexts == old(contexts)[userId := c.(usedJokes := [])]
      ensures contexts[userId].messages == ContextOf(old(contexts), userId, now).messages
      ensures OthersUnchanged(old(contexts), contexts, userId)
    {
      var c := GetContext(userId, now);
      contexts := contexts[userId := c.(usedJokes := [])];
    }

    /** `clearContext`: forgets the user, so the next access starts afresh. */
    method ClearContext(userId: string)
      modifies this
      ensures contexts == old(contexts) - {userId}
      ensures forall now :: ContextOf(contexts, userId, now) == NewContext(now)
      ensures OthersUnchanged(old(contexts), contexts, userId)
    {
      contexts := contexts - {userId};
    }

    /** `getConversationStats`. */
    method GetConversationStats(userId: string, now: int) returns (s: Stats)
      modifies this
      ensures s == StatsOf(ContextOf(old(contexts), userId, now), now)
      ensures contexts == old(contexts)[userId := ContextOf(old(contexts), userId, now)]
      ensures userId in old(contexts) ==> contexts == old(contexts)
    {
      var c := GetContext(userId, now);
      s := StatsOf(c, now);
    }

    /** `detectUserMood`. */
    method DetectUserMood(userId: string, now: int) returns (m: Mood)
      modifies this
      ensures m == MoodOf(ContextOf(old(contexts), userId, now).messages)
      ensures contexts == old(contexts)[userId := ContextOf(old(contexts), userId, now)]
      ensures userId in old(contexts) ==> contexts == old(contexts)
    {
      var c := GetContext(userId, now);
      m := MoodOf(c.messages);
    }

    /** `getResponseSuggestions`. */
    method GetResponseSuggestions(userId: string, now: int) returns (r: seq<string>)
      modifies this
      ensures var c := ContextOf(old(contexts), userId, now);
              r == Suggestions(MoodOf(c.messages), StatsOf(c, now))
      ensures contexts == old(contexts)[userId := ContextOf(old(contexts), userId, now)]
      ensures userId in old(contexts) ==> contexts == old(contexts)
    {
      var c := GetContext(userId, now);
      var mood := DetectUserMood(userId, now);
      var stats := GetConversationStats(userId, now);
      r := MoodSuggestions(mood);
      if stats.messageCount > 10 {
        r := r + [LongChatSuggestion];
      }
      if stats.jokesTold > 3 {
        r := r + [JokesSuggestion];
      }
    }
  }
}
