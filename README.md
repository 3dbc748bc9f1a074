# SolarBot chat widget — a verified model

SolarBot is a single-page chat assistant for a solar-energy company. The
page keeps one session state: the chat history with a message id counter,
a map of analytics counters, and the quick-reply buttons shown under the
chat. The user types a question; after a short typing delay the bot
answers with a canned reply. The reply is chosen by twelve keyword rules
tried in a fixed order, with a random pick among three texts for some
rules and for the fallback. Some replies also open the savings calculator
or the contact form a moment later. After every bot message the buttons
are chosen from the lower-cased reply text. The page can also export the
conversation as a plain-text transcript, clear it, and switch themes.

The model is split into these modules:

- `Text`: the JavaScript string behaviour the page relies on.
  - `toLowerCase`, restricted to ASCII.
  - `includes`.
  - The regular-expression shape `a.*b`, where `.` stops at a line terminator.
  - `trim`, with JavaScript's full white-space set.
  - The decimal rendering of a count.
- `Intents`: `getResponse`.
  - The rules are an ordered list of (intent, pattern, effect).
  - The first matching rule answers.
  - `Math.random()` is a real `r` with `0 <= r < 1`, and the pick is `floor(r * n)`, as in the page.
  - The delayed calculator or contact-form call comes back as an `Effect`.
- `Suggestions`: `updateSuggestions`. It picks a keyword group in priority order and returns that group's four buttons.
- `Calculator`: `calculateSavings`.
  - Inputs use `parseFloat(...) || default`.
  - A negative bill or negative sun hours is refused.
  - The figures are the page's formulas, over exact reals.
- `Analytics`: `trackEvent` on the counter map, plus what any sequence of events does to it.
- `Transcript`: the text `exportChat` writes. The locale formatting of dates and times is passed in.
- `Session`: the class `ChatSession`.
  - It holds the page state and one method per handler.
  - Every method keeps `messageIdCounter == |chatHistory|`, the six counter names, and the "messagessent" counter at 0.
  - Timers that are set but have not fired are kept in `pending`. `Deliver` fires any one of them, which covers every order the event loop could choose.

In two places the code does something other than one might expect. The
model follows the code in both:

- One might expect the welcome message to stay in the history after a confirmed clear. It does not: the history is empty, and the welcome message is put back only on the screen (script.js:357, 360-372).
- One might expect a calculator field of `0` to be refused. It is not: `|| default` replaces it with the default before the check runs (script.js:240-248).

## Model

| member | source | states |
|---|---|---|
| Text.Lower | script.js:509 | lower-casing keeps the length and maps each character by itself: only A–Z change |
| Text.LowerIdempotent | script.js:452 | lower-cased text contains no upper-case ASCII letter, so lower-casing it again changes nothing |
| Text.Contains | script.js:591 | `includes(w)` is true exactly when `w` occurs at some index |
| Text.FollowedBy | script.js:511 | the pattern `a.*b` matches exactly when `a` occurs and `b` occurs later with no line terminator in between |
| Text.Trim | script.js:382 | the result is a slice of the input with only white space removed on each side; a non-empty result neither starts nor ends with white space; the result is empty exactly when the input is all white space |
| Text.TrimIdempotent | script.js:382 | trimming twice gives what trimming once gives |
| Text.NatToString | script.js:323 | a count is written as decimal digits with no leading zero |
| Text.NatToStringValue | script.js:323 | reading the written count back gives the count |
| Text.NatToStringInjective | script.js:323 | different counts are written differently |
| Intents.WordAt | script.js:526 | a word stands alone at index `i`: it starts the message or follows white space, and it ends the message or is followed by white space or `!` |
| Intents.Matches | script.js:511-575 | an alternation matches when one of its literals occurs anywhere, or one `a.*b` alternative matches; the greeting shape matches when one of its words stands alone somewhere |
| Intents.GreetingBoundary | script.js:526 | "hi!" and "oh hi there" get a greeting match; "this" and "hiking" do not, although both contain "hi" |
| Intents.Candidates | script.js:527-583 | greeting, benefits, cost and the fallback each have three texts; every other rule has one |
| Intents.RuleIndex | script.js:511-575 | each intent except the fallback has a rule with that intent, and no other rule has it |
| Intents.RulesInIntentOrder | script.js:511-575 | the rules are tried in the page's order: calculator, schedule, contact, greeting, benefits, cost, how it works, environment, thanks, goodbye, financing, roof |
| Intents.FirstMatch | script.js:511-575 | the chosen rule matches and no earlier rule does; when no rule is chosen, no rule matches |
| Intents.PickIndex | script.js:532 | `floor(r * n)` is a valid index for `0 <= r < 1` |
| Intents.PickIndexReaches | script.js:532 | every index is picked for some value of `r` |
| Intents.Respond | script.js:508-584 | the reply comes from the first rule whose pattern matches the lower-cased message, together with that rule's effect; with no match it is a fallback reply with no effect; the text is one of that intent's candidates |
| Intents.IntentIgnoresRandom | script.js:508-584 | the random value changes only which candidate text is returned, never the intent or the effect |
| Intents.RepliesAreExactlyCandidates | script.js:527-583 | the reply is one of the answering rule's candidates, and every such candidate is returned for some random value |
| Intents.CalculatorWins | script.js:511-513 | a message with "calculat", "savings", "estimate" or "how much…save" gets the calculator reply and opens the calculator, whatever else it contains |
| Intents.EffectsByIntent | script.js:511-524 | only the schedule and contact rules open the contact form; only the calculator rule opens the calculator |
| Intents.FinancingOnlyByLoan | script.js:544-571 | a financing reply implies the message contains "loan" and contains none of "pay", "financing", "payment plan" or "monthly payment" |
| Intents.NoCostWordsNoPay | script.js:544 | a message the cost rule rejects contains neither "pay" nor "financing" |
| Intents.ShadowedFinancingMatch | script.js:569 | if the financing pattern matches a message without "pay" and "financing", then it matched on "loan" |
| Intents.LoanReachesFinancing | script.js:569-570 | a message that contains "loan" and matches no earlier rule gets the financing reply |
| Intents.EmptyMessageRedirects | script.js:577-583 | the empty message matches no rule and gets a fallback reply with no effect |
| Suggestions.GroupFor | script.js:591-612 | the chosen group mentions one of its own keywords, and no higher-priority group's keyword appears |
| Suggestions.SuggestionsFor | script.js:587-619 | there are always four buttons: the fixed set of the chosen group |
| Suggestions.EmptyContextIsDefault | script.js:374 | the empty context passed on clear gives the default buttons |
| Suggestions.CostWordsTakePriority | script.js:591-597 | any cost, price or afford word gives the cost buttons |
| Calculator.OrDefault | script.js:240-243 | an unreadable field or a 0 gives the default; any other number is kept; the result is 0 only when the default is |
| Calculator.CalculateSavings | script.js:239-261 | the result is absent exactly when the bill or the sun hours is negative; otherwise: cost = 3000 × size; credit = 30% of cost; incentive = rate × cost; net cost = cost − credit − incentive; annual savings = 12 × bill > 0; payback = net / annual; 25-year = 25 × annual − net; monthly = net / 180 |
| Calculator.PresetFigures | script.js:240-258 | the preset values, and an empty form too, give 21000 / 6300 / 1680 / 13020 / 1800 |
| Calculator.ZeroActsAsMissing | script.js:240-243 | a 0 in any field acts exactly like an unreadable field |
| Calculator.SunHoursOnlyValidated | script.js:246-258 | once accepted, the sun hours change no figure |
| Analytics.Tracked | script.js:20-26 | the keys stay the same; the counter named by the event goes up by one; every other counter is unchanged; an unknown name changes nothing |
| Analytics.TrackAll | script.js:20-26 | reporting events one after another keeps the set of counters and never lowers a counter |
| Analytics.TrackAllCounts | script.js:20-26 | after any run of events, each counter has grown by exactly the number of times its name was reported |
| Analytics.AbsentNameNeverCounted | script.js:24-26 | a name that is never reported is never counted |
| Analytics.MessagesSentStaysZero | script.js:389 | the page reports "messageSent" but the counter is "messagessent", so that counter stays 0 whatever events are reported |
| Analytics.UncountedEvents | script.js:59 | "messageSent", "sessionStarted", "calculationCompleted" and "chatCleared" name no counter and change nothing |
| Transcript.BlockIntro | script.js:327-329 | a block starts with `[`, the message's time, `] `, `You` or `SolarBot`, a colon and a line break |
| Transcript.Block | script.js:327-329 | a block is its intro, then the message content verbatim, then a blank line |
| Transcript.Blocks | script.js:326-330 | there is one block per message, in history order, and each block is `[time] You:` or `[time] SolarBot:`, a line break, the content and a blank line |
| Transcript.Header | script.js:321-324 | the header is the title line, `Date: ` with the date, `Total Messages: ` with the count, and the separator followed by a blank line |
| Transcript.Render | script.js:320-333 | the export is the header, then every block in history order, then the separator and signature lines, with nothing between |
| Transcript.RenderLayout | script.js:320-333 | each message's content appears verbatim in the export, right after the header, the blocks of the messages before it and its own intro |
| Transcript.BlocksExtend | script.js:326-330 | adding the next message's block to the blocks so far gives the blocks of the longer history |
| Transcript.HeaderCount | script.js:323 | the "Total Messages" field reads back as the number of messages |
| Session.ChatSession.constructor | script.js:2-17 | after load: empty history, counter 0, all six counters 0, light theme, default buttons |
| Session.ChatSession.TrackEvent | script.js:20-26 | the counters become `Tracked` of the old counters; nothing else changes; the session invariant is kept for every name except "messagessent" |
| Session.ChatSession.AddMessage | script.js:413-454 | the new message gets the old counter as its id and is appended; the counter goes up by one; a bot message sets the buttons from its lower-cased text |
| Session.ChatSession.SendMessage | script.js:380-399 | blank input changes nothing; otherwise exactly one user entry with the trimmed text is added and a bot reply is scheduled; no counter moves |
| Session.ChatSession.Deliver | script.js:393-398 | a fired reply timer appends `Respond`'s text as a bot message and schedules its effect; the effect timers open the calculator or the contact form; the notice timer appends the contact-form notice |
| Session.ChatSession.ShowCalculator | script.js:201-237 | "calculatorUsed" goes up by one; the history is untouched |
| Session.ChatSession.OpenContactForm | script.js:189-198 | "contactFormOpened" goes up by one and the notice is scheduled |
| Session.ChatSession.PressSuggestion | script.js:401-404 | a question button sends its question as a user message; the other buttons open the calculator or the contact form |
| Session.QuestionsAreNotBlank | script.js:593-617 | every question button's text is already trimmed and not empty |
| Session.ChatSession.ClearChat | script.js:350-377 | once confirmed: empty history, counter 0, default buttons, counters unchanged; not confirmed: nothing changes |
| Session.ChatSession.ExportChat | script.js:315-347 | an empty history gives nothing and no counter moves; otherwise the text is the rendered transcript and "chatExported" goes up by one |
| Session.WriteTranscript | script.js:320-333 | the text built block by block in history order is exactly the rendered transcript |
| Session.ChatSession.ToggleTheme | script.js:115-132 | the theme flips and "themeToggled" goes up by one |
| Session.ChatSession.GetAnalytics | script.js:40-46 | the snapshot holds the counters, the total message count (equal to the id counter) and the time since load; its "messagessent" counter reads 0 |

## Left out

- Text.Lower: only ASCII letters are lower-cased; the Unicode case mapping of `toLowerCase` and the `/i` flag is not modelled.
- Calculator.CalculateSavings: the figures are exact reals; the page's floating-point rounding, `toFixed` and `toLocaleString` display, and Infinity or negative-zero inputs are not modelled. The unused `annualProduction` is left out.
- Session.ChatSession.AddMessage: the timestamp is the clock value passed in, not its ISO string; `toLocaleTimeString` in the export is the `timeOf` parameter.
- Session.ChatSession.constructor: the buttons shown before the first bot message come from the page's HTML, which is not part of this model. The default set is assumed.
- Session.ChatSession.GetAnalytics: `Date.now()` is the `now` parameter.
- DOM work is not modelled: message elements, avatars, `addCustomMessage` HTML, the results panel, the typing indicator, toasts, scrolling, the welcome animation and the menu. None of it changes the modelled state.
- Timer latencies (100 ms, 300 ms, 500 ms, and 1000 to 1500 ms of jitter) are not modelled. Only the fact that a step is pending is kept, so `Deliver` may fire the pending steps in any order.
- Speech recognition (`voiceUsed`, `isListening`) is left out because it is a foreign browser API. The Enter-key handler simply calls `sendMessage`.
- `window.open` of the contact form URL is left out because it is a browser call.
- The Blob download of the transcript and its file name are left out because they are browser calls.
- `console.log` in `trackEvent` and the commented-out analytics backends are left out.
- The "calculationCompleted" event is left out. It names no counter (`Analytics.UncountedEvents`).
- The calculator's input form is not modelled; its fields arrive as `Calculator.Field` values.
