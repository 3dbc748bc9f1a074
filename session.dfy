/** The page's session state and the handlers that change it: the chat
    history with its message id counter, the analytics counters, the quick
    reply buttons currently shown, the theme, and the timers still waiting
    to fire. The page's timers (the bot's typing delay, the delayed opening
    of the calculator or contact form, the contact form notice) are kept as
    a list of pending steps; `Deliver` fires any one of them, so every order
    the event loop could choose is covered. */
module Session {
  import opened Wrappers
  import opened Text
  import opened Intents
  import opened Suggestions
  import opened Analytics
  import opened Transcript

  /** A timer that has been set and has not fired yet. */
  datatype Deferred =
    | BotReply(query: string)   // the bot answers the user's (trimmed) message
    | CalculatorTimer           // the calculator opens after a calculator reply
    | ContactFormTimer          // the contact form opens after a schedule or contact reply
    | ContactNotice             // the bot's notice after the contact form opened

  /** The timers a reply's effect sets. */
  function Scheduled(effect: Effect): seq<Deferred> {
    match effect
    case NoEffect => []
    case ShowCalculator => [CalculatorTimer]
    case OpenContactForm => [ContactFormTimer]
  }

  const ContactNoticeText: string := "I've opened our contact form in a new tab! Please fill it out and our solar experts will reach out to you within 24 hours. Feel free to ask me any other questions!"

  /** What `getAnalytics` returns. */
  datatype Snapshot = Snapshot(counters: map<string, nat>, totalMessages: nat, sessionDuration: int)

  class ChatSession {
    var chatHistory: seq<Message>
    var messageIdCounter: int
    var analytics: map<string, nat>
    var suggestions: seq<Suggestion>
    var pending: seq<Deferred>
    var darkTheme: bool
    const sessionStart: int

    /** Every message added got the next id, so the counter is the length
        of the history; the counters are exactly the six of the page, and
        "messagessent" stays at zero because sent messages are reported as
        "messageSent"; one of the four button sets is shown. */
    ghost predicate Valid()
      reads this
    {
      && messageIdCounter == |chatHistory|
      && analytics.Keys == CounterNames
      && analytics["messagessent"] == 0
      && suggestions in {CostSet, ScheduleSet, CalculatorSet, DefaultSet}
    }

    /** The page after loading: an empty history, all counters zero (the
        "sessionStarted" event names no counter), the light theme and the
        default buttons. */
    constructor(now: int)
      ensures Valid()
      ensures chatHistory == [] && messageIdCounter == 0
      ensures analytics == InitialCounters && suggestions == DefaultSet
      ensures pending == [] && !darkTheme && sessionStart == now
    {
      chatHistory := [];
      messageIdCounter := 0;
      analytics := Tracked(InitialCounters, "sessionStarted");
      suggestions := DefaultSet;
      pending := [];
      darkTheme := false;
      sessionStart := now;
    }

    /** `trackEvent(name)`. Every name the page reports keeps the
        invariant; only a report of "messagessent" itself would break it. */
    method TrackEvent(name: string)
      requires Valid()
      modifies this
      ensures name != "messagessent" ==> Valid()
      ensures analytics == Tracked(old(analytics), name)
      ensures chatHistory == old(chatHistory) && messageIdCounter == old(messageIdCounter)
      ensures suggestions == old(suggestions) && pending == old(pending) && darkTheme == old(darkTheme)
    {
      analytics := Tracked(analytics, name);
    }

    /** `addMessage(content, isUser)` at time `now`: the message gets the
        next id and is appended to the history; a bot message also picks
        the buttons from its lower-cased text. */
    method AddMessage(content: string, isUser: bool, now: int) returns (id: int)
      requires Valid()
      modifies this
      ensures Valid()
      ensures id == old(messageIdCounter) == old(|chatHistory|)
      ensures chatHistory == old(chatHistory) + [Message(if isUser then User else Assistant, content, now)]
      ensures messageIdCounter == old(messageIdCounter) + 1
      ensures suggestions == if isUser then old(suggestions) else SuggestionsFor(Lower(content))
      ensures analytics == old(analytics) && pending == old(pending) && darkTheme == old(darkTheme)
    {
      id := messageIdCounter;
      messageIdCounter := messageIdCounter + 1;
      chatHistory := chatHistory + [Message(if isUser then User else Assistant, content, now)];
      if !isUser {
        suggestions := SuggestionsFor(Lower(content));
      }
    }

    /** `sendMessage` with `typed` in the input box: blank input is
        ignored; otherwise the trimmed text is added as the user's message
        and the bot's reply is scheduled. The "messageSent" event names no
        counter, so no counter moves. */
    method SendMessage(typed: string, now: int)
      requires Valid()
      modifies this
      ensures Valid()
      ensures Trim(typed) == [] ==>
        && chatHistory == old(chatHistory) && messageIdCounter == old(messageIdCounter)
        && pending == old(pending)
      ensures Trim(typed) != [] ==>
        && chatHistory == old(chatHistory) + [Message(User, Trim(typed), now)]
        && messageIdCounter == old(messageIdCounter) + 1
        && pending == old(pending) + [BotReply(Trim(typed))]
      ensures analytics == old(analytics) && suggestions == old(suggestions) && darkTheme == old(darkTheme)
    {
      var message := Trim(typed);
      if message == [] {
        return;
      }
      var _ := AddMessage(message, true, now);
      UncountedEvents(analytics, "messageSent");
      TrackEvent("messageSent");
      pending := pending + [BotReply(message)];
    }

    /** `showCalculator`: the calculator form is shown (outside the
        history) and "calculatorUsed" goes up. */
    method ShowCalculator()
      requires Valid()
      modifies this
      ensures Valid()
      ensures analytics == old(analytics)["calculatorUsed" := old(analytics)["calculatorUsed"] + 1]
      ensures chatHistory == old(chatHistory) && messageIdCounter == old(messageIdCounter)
      ensures suggestions == old(suggestions) && pending == old(pending) && darkTheme == old(darkTheme)
    {
      TrackEvent("calculatorUsed");
    }

    /** `openContactForm`: the form opens in a new tab, "contactFormOpened"
        goes up and the bot's notice is scheduled. */
    method OpenContactForm()
      requires Valid()
      modifies this
      ensures Valid()
      ensures analytics == old(analytics)["contactFormOpened" := old(analytics)["contactFormOpened"] + 1]
      ensures pending == old(pending) + [ContactNotice]
      ensures chatHistory == old(chatHistory) && messageIdCounter == old(messageIdCounter)
      ensures suggestions == old(suggestions) && darkTheme == old(darkTheme)
    {
      TrackEvent("contactFormOpened");
      pending := pending + [ContactNotice];
    }

    /** Timer `k` fires; `r` stands for `Math.random()` when a reply is
        picked. The bot's reply adds the reply to the history and sets the
        timer of its effect; the effect timers open the calculator or the
        contact form; the notice adds the notice to the history. */
    method Deliver(k: nat, r: real, now: int)
      requires Valid()
      requires k < |pending| && 0.0 <= r < 1.0
      modifies this
      ensures Valid()
      ensures var rest, counters := old(pending[..k] + pending[k + 1..]), old(analytics);
        match old(pending[k])
        case BotReply(query) =>
          var reply := Respond(query, r);
          && chatHistory == old(chatHistory) + [Message(Assistant, reply.text, now)]
          && suggestions == SuggestionsFor(Lower(reply.text))
          && pending == rest + Scheduled(reply.effect) && analytics == counters
        case CalculatorTimer =>
          && chatHistory == old(chatHistory) && suggestions == old(suggestions) && pending == rest
          && analytics == counters["calculatorUsed" := counters["calculatorUsed"] + 1]
        case ContactFormTimer =>
          && chatHistory == old(chatHistory) && suggestions == old(suggestions)
          && pending == rest + [ContactNotice]
          && analytics == counters["contactFormOpened" := counters["contactFormOpened"] + 1]
        case ContactNotice =>
          && chatHistory == old(chatHistory) + [Message(Assistant, ContactNoticeText, now)]
          && suggestions == SuggestionsFor(Lower(ContactNoticeText))
          && pending == rest && analytics == counters
      ensures darkTheme == old(darkTheme)
    {
      var timer := pending[k];
      pending := pending[..k] + pending[k + 1..];
      match timer
      case BotReply(query) =>
        var reply := Respond(query, r);
        pending := pending + Scheduled(reply.effect);
        var _ := AddMessage(reply.text, false, now);
      case CalculatorTimer =>
        ShowCalculator();
      case ContactFormTimer =>
        OpenContactForm();
      case ContactNotice =>
        var _ := AddMessage(ContactNoticeText, false, now);
    }

    /** A click on quick reply button `k`: a question button sends its
        question as if typed; the others open the calculator or the
        contact form. */
    method PressSuggestion(k: nat, now: int)
      requires Valid() && k < |suggestions|
      modifies this
      ensures Valid()
      ensures match old(suggestions[k].action)
        case Ask(query) =>
          && chatHistory == old(chatHistory) + [Message(User, Trim(query), now)]
          && pending == old(pending) + [BotReply(Trim(query))] && analytics == old(analytics)
        case OpenCalculator =>
          && chatHistory == old(chatHistory) && pending == old(pending)
          && analytics == old(analytics)["calculatorUsed" := old(analytics)["calculatorUsed"] + 1]
        case OpenContact =>
          && chatHistory == old(chatHistory) && pending == old(pending) + [ContactNotice]
          && analytics == old(analytics)["contactFormOpened" := old(analytics)["contactFormOpened"] + 1]
      ensures suggestions == old(suggestions) && darkTheme == old(darkTheme)
    {
      match suggestions[k].action
      case Ask(query) =>
        QuestionsAreNotBlank(old(suggestions), k);
        SendMessage(query, now);
      case OpenCalculator =>
        ShowCalculator();
      case OpenContact =>
        OpenContactForm();
    }

    /** `clearChat` with the user's answer to the confirmation: when
        confirmed, the history is emptied (the welcome message put back is
        only shown, never recorded), the counter restarts at zero and the
        default buttons return. Nothing else changes; timers already set
        still fire. */
    method ClearChat(confirmed: bool)
      requires Valid()
      modifies this
      ensures Valid()
      ensures !confirmed ==> chatHistory == old(chatHistory) && suggestions == old(suggestions)
      ensures confirmed ==> chatHistory == [] && messageIdCounter == 0 && suggestions == DefaultSet
      ensures analytics == old(analytics) && pending == old(pending) && darkTheme == old(darkTheme)
    {
      if !confirmed {
        return;
      }
      chatHistory := [];
      messageIdCounter := 0;
      EmptyContextIsDefault();
      suggestions := SuggestionsFor("");
      UncountedEvents(analytics, "chatCleared");
      TrackEvent("chatCleared");
    }

    /** `exportChat`: nothing for an empty history; otherwise the
        transcript, written one block per message, and "chatExported"
        goes up. `dateText` is the locale date of the export and `timeOf`
        the locale time of a message's timestamp. */
    method ExportChat(dateText: string, timeOf: int -> string) returns (doc: Option<string>)
      requires Valid()
      modifies this
      ensures Valid()
      ensures doc.None? <==> old(chatHistory) == []
      ensures doc.Some? ==> doc.value == Render(chatHistory, dateText, timeOf)
      ensures analytics == if doc.None? then old(analytics)
        else old(analytics)["chatExported" := old(analytics)["chatExported"] + 1]
      ensures chatHistory == old(chatHistory) && messageIdCounter == old(messageIdCounter)
      ensures suggestions == old(suggestions) && pending == old(pending) && darkTheme == old(darkTheme)
    {
      if |chatHistory| == 0 {
        return None;
      }
      var text := WriteTranscript(chatHistory, dateText, timeOf);
      assert "chatExported" in analytics && "chatExported"[0] != "messagessent"[0];
      TrackEvent("chatExported");
      doc := Some(text);
    }

    /** `toggleTheme`: the theme flips and "themeToggled" goes up. */
    method ToggleTheme()
      requires Valid()
      modifies this
      ensures Valid()
      ensures darkTheme == !old(darkTheme)
      ensures analytics == old(analytics)["themeToggled" := old(analytics)["themeToggled"] + 1]
      ensures chatHistory == old(chatHistory) && messageIdCounter == old(messageIdCounter)
      ensures suggestions == old(suggestions) && pending == old(pending)
    {
      darkTheme := !darkTheme;
      assert "themeToggled"[0] != "messagessent"[0];
      TrackEvent("themeToggled");
    }

    /** `getAnalytics` at time `now`: the six counters, the number of
        messages in the history (which is also the next message id) and the
        time since the page loaded. The "messagessent" counter in it is
        always 0, since sent messages are reported under another name. */
    method GetAnalytics(now: int) returns (snapshot: Snapshot)
      requires Valid()
      ensures snapshot.counters == analytics && snapshot.counters.Keys == CounterNames
      ensures snapshot.counters["messagessent"] == 0
      ensures snapshot.totalMessages == |chatHistory| == messageIdCounter
      ensures snapshot.sessionDuration == now - sessionStart
    {
      snapshot := Snapshot(analytics, |chatHistory|, now - sessionStart);
    }
  }

  /** The text `exportChat` builds for `history`: the header, then one
      block appended per message in history order, then the footer. */
  method WriteTranscript(history: seq<Message>, dateText: string, timeOf: int -> string)
    returns (text: string)
    ensures text == Render(history, dateText, timeOf)
  {
    var head := Header(dateText, |history|);
    text := head;
    var i := 0;
    while i < |history|
      invariant 0 <= i <= |history|
      invariant text == head + Concat(Blocks(history[..i], timeOf))
    {
      var block := Block(history[i], timeOf);
      BlocksExtend(history, i, timeOf);
      Append3(head, Concat(Blocks(history[..i], timeOf)), block);
      text := text + block;
      i := i + 1;
    }
    assert history[..i] == history;
    text := text + Footer;
  }

  lemma Append3(a: string, b: string, c: string)
    ensures a + b + c == a + (b + c)
  {
  }

  /** A text that starts and ends with a visible character is its own trim. */
  lemma TrimmedAlready(s: string)
    requires |s| > 0 && !IsSpace(s[0]) && !IsSpace(s[|s| - 1])
    ensures Trim(s) == s
  {
    assert LeadingSpaces(s) == 0;
  }

  /** No question button asks a blank question or one with white space
      around it, so pressing one sends the question as written. */
  lemma QuestionsAreNotBlank(items: seq<Suggestion>, k: nat)
    requires k < |items| && items[k].action.Ask?
    requires items in {CostSet, ScheduleSet, CalculatorSet, DefaultSet}
    ensures Trim(items[k].action.query) == items[k].action.query != []
  {
    var q := items[k].action.query;
    assert q[0] in "HISW" && q[|q| - 1] in "?tn";
    TrimmedAlready(q);
  }
}
