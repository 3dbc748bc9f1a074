/** The intent matcher behind the bot's replies: the user's message is
    lower-cased and tested against twelve rules in a fixed priority order;
    the first rule whose pattern matches decides the reply, and a message
    that matches none gets one of the redirect replies. Three rules also
    ask the page to open the calculator or the contact form a moment
    later; here that request is returned as an `Effect`. */
module Intents {
  import opened Text
  import opened Wrappers

  /** Which rule answered, `Redirect` when none did. */
  datatype Intent =
    | Calculator | Schedule | Contact | Greeting | Benefits | Cost
    | HowItWorks | Environment | Thanks | Goodbye | Financing | Roof
    | Redirect

  /** The deferred UI action a reply asks for. */
  datatype Effect = NoEffect | ShowCalculator | OpenContactForm

  /** One alternative of a regular expression `x|y|...`: a literal, or a
      literal followed later on the same line by another (`a.*b`). */
  datatype Alternative = Literal(word: string) | Gap(first: string, later: string)

  /** A rule's regular expression: either an alternation of alternatives
      that may match anywhere, or the greeting shape
      `(^|\s)(w1|w2|...)($|\s|!)`. */
  datatype Pattern = AnyOf(alts: seq<Alternative>) | WordAtBoundary(words: seq<string>)

  datatype Rule = Rule(intent: Intent, pattern: Pattern, effect: Effect)

  datatype Reply = Reply(intent: Intent, text: string, effect: Effect)

  predicate AltMatches(alt: Alternative, msg: string) {
    match alt
    case Literal(w) => Contains(msg, w)
    case Gap(a, b) => FollowedBy(msg, a, b)
  }

  /** `w` occurs at `i` with white space or the start of `msg` before it,
      and white space, `!` or the end of `msg` after it. */
  predicate WordAt(msg: string, w: string, i: int) {
    && OccursAt(msg, w, i)
    && (i == 0 || IsSpace(msg[i - 1]))
    && (i + |w| == |msg| || IsSpace(msg[i + |w|]) || msg[i + |w|] == '!')
  }

  /** The regular expression `p` finds a match in `msg`. */
  predicate Matches(p: Pattern, msg: string) {
    match p
    case AnyOf(alts) => exists k | 0 <= k < |alts| :: AltMatches(alts[k], msg)
    case WordAtBoundary(words) =>
      exists k, i | 0 <= k < |words| && 0 <= i <= |msg| :: WordAt(msg, words[k], i)
  }

  // ----- the canned replies -----

  const CalculatorReply: string := "Great! Let me pull up the solar savings calculator for you. Just fill in your details and I'll calculate your potential savings, payback period, and 25-year benefits! 🧮"

  const ScheduleReply: string := "Excellent! I'd be happy to help you schedule a consultation. Let me open our contact form where you can share your availability and preferences. Our solar experts typically respond within 24 hours!"

  const ContactReply: string := "Perfect! I've opened our contact form in a new tab. Please fill it out and our solar experts will reach out to you within 24 hours. Is there anything else I can help you with?"

  const HowItWorksReply: string := "Solar panels use photovoltaic cells made of silicon that absorb sunlight. When photons hit these cells, they knock electrons loose, creating DC electrical current. An inverter converts this to AC power for your home. On sunny days, excess power flows back to the grid, earning you credits! Even on cloudy days, modern panels generate 15-20% of peak power. It's completely automated!"

  const EnvironmentReply: string := "The environmental impact is phenomenal! Every year, a typical system prevents 3-4 tons of CO2 emissions - equivalent to planting 100 trees annually. Over 25 years, that's 100+ tons of CO2 offset! Solar produces zero air pollution, uses no water, and directly combats climate change. You're reducing demand for fossil fuels and helping create a cleaner planet!"

  const ThanksReply: string := "You're very welcome! I'm always happy to help people discover solar benefits. Is there anything else you'd like to know, or would you like to use our calculator or speak with our team?"

  const GoodbyeReply: string := "Thanks for chatting! I hope I've helped you understand why solar is such a smart investment. Feel free to return anytime with questions. Have a sunny day! ☀️"

  const FinancingReply: string := "Financing solar is easier than ever! Most providers offer $0 down with monthly payments often lower than your current electric bill. Options include solar loans (own the system, get tax credits), solar leases (no upfront cost, fixed monthly rate), and power purchase agreements (pay only for energy produced). Many homeowners qualify instantly, and the 30% federal tax credit can be applied to reduce your loan amount. Want to use our calculator to see estimated monthly payments?"

  const RoofReply: string := "Most roofs are perfect for solar! Ideal conditions include south-facing with minimal shade, but east and west-facing roofs work great too. Installation typically takes 1-3 days after permits are approved. The entire process from consultation to activation averages 2-3 months. Modern mounting systems don't damage your roof - they're designed to protect it! Solar panels can even extend your roof's life by shielding it from weather. Want to schedule a free roof assessment?"

  const GreetingReplies: seq<string> := [
    "Hello! Great to meet you! I'm SolarBot, your AI solar assistant. I can help you calculate savings, answer questions, and connect you with our expert team. What would you like to know about solar energy?",
    "Hey there! Thanks for chatting with me! I'm here to help you explore solar options. I can run calculations, explain benefits, or schedule a consultation. What interests you most?",
    "Hi! Welcome! I'm excited to help you discover solar energy. Whether you want to calculate potential savings, learn about costs, or speak with an expert, I'm here to help. What can I do for you today?"
  ]

  const BenefitsReplies: seq<string> := [
    "Solar panels offer incredible benefits! Financially, most homeowners save $20,000-$75,000 over 25 years, with systems paying for themselves in 6-10 years. Your home value increases by 3-4%, and you'll enjoy energy independence. Environmentally, you're directly fighting climate change - a typical system offsets 3-4 tons of CO2 annually! Plus, with current 30% federal tax credits, there's never been a better time. Want to use our calculator to see your specific savings?",
    "Great question! The advantages are substantial: dramatically reduced electricity bills, protection from rising energy costs, increased property value, and real environmental impact. Most systems pay for themselves in 6-10 years through savings. With incentives and financing options available, going solar is more accessible than ever! Want to calculate your potential savings?",
    "There are so many reasons to go solar! You'll save thousands over the system's 25+ year lifespan, lock in low energy costs, boost your home's value, and help fight climate change. Plus, solar technology is proven and reliable. With 30% tax credits available, it's a smart financial decision! Want to see the numbers for your home?"
  ]

  const CostReplies: seq<string> := [
    "Great question! A typical residential system runs $15,000-$25,000 before incentives. The federal tax credit immediately reduces that by 30%, and many states offer additional rebates. Most homeowners pay $10,500-$17,500 effectively. You can finance with $0 down, and monthly payments are often less than your electric bill. The system pays for itself in 6-10 years! Want to use our calculator for exact numbers?",
    "Solar costs have dropped dramatically! The average system costs around $18,000 before incentives. With the 30% federal tax credit, that's about $12,600. Financing options make solar accessible with $0 down. You're trading your utility payment for a solar payment that leads to ownership. After 6-10 years, you have free electricity! Want to calculate your specific costs?",
    "Investing in solar is more affordable than ever! While systems cost $15,000-$25,000 upfront, the 30% federal tax credit plus state incentives can cut that significantly. Most people finance, paying less monthly than their old electric bill. Over 25-30 years, you'll save $40,000-$100,000! Try our calculator to see your savings!"
  ]

  const Redirects: seq<string> := [
    "That's interesting! While my expertise is solar energy, I'm happy to chat. Since you're here, have you considered using our calculator to see potential savings? I can also answer questions or connect you with our expert team!",
    "Good question! I specialize in solar energy, but I can try to help. Speaking of which, would you like to learn about solar benefits? Try our calculator or ask me anything!",
    "Thanks for asking! While solar energy is my specialty, I'm here for friendly conversation too. Would you like to calculate potential savings, schedule a consultation, or explore what solar could do for you?"
  ]

  /** The candidate replies of each rule, and `Redirects` for no rule. */
  function Candidates(intent: Intent): (cs: seq<string>)
    ensures |cs| == if intent in {Greeting, Benefits, Cost, Redirect} then 3 else 1
  {
    match intent
    case Calculator => [CalculatorReply]
    case Schedule => [ScheduleReply]
    case Contact => [ContactReply]
    case Greeting => GreetingReplies
    case Benefits => BenefitsReplies
    case Cost => CostReplies
    case HowItWorks => [HowItWorksReply]
    case Environment => [EnvironmentReply]
    case Thanks => [ThanksReply]
    case Goodbye => [GoodbyeReply]
    case Financing => [FinancingReply]
    case Roof => [RoofReply]
    case Redirect => Redirects
  }

  // ----- the rules, in the order they are tried -----

  const CalculatorRule := Rule(Calculator,
    AnyOf([Literal("calculat"), Literal("savings"), Literal("estimate"), Gap("how much", "save")]),
    ShowCalculator)

  const ScheduleRule := Rule(Schedule,
    AnyOf([Literal("schedule"), Literal("appointment"), Literal("consult"), Literal("book"),
           Literal("meet"), Literal("visit")]),
    OpenContactForm)

  const ContactRule := Rule(Contact,
    AnyOf([Literal("contact"), Literal("call"), Literal("email"), Literal("reach"),
           Literal("speak"), Gap("talk", "someone")]),
    OpenContactForm)

  const GreetingRule := Rule(Greeting,
    WordAtBoundary(["hi", "hello", "hey", "greetings", "good morning", "good afternoon", "good evening"]),
    NoEffect)

  const BenefitsRule := Rule(Benefits,
    AnyOf([Literal("why"), Literal("benefit"), Literal("advantage"), Literal("should i"),
           Literal("worth it"), Literal("good idea"), Literal("pros")]),
    NoEffect)

  const CostRule := Rule(Cost,
    AnyOf([Literal("cost"), Literal("price"), Literal("expensive"), Literal("afford"), Literal("pay"),
           Literal("money"), Literal("dollar"), Literal("investment"), Literal("financing")]),
    NoEffect)

  const HowItWorksRule := Rule(HowItWorks,
    AnyOf([Gap("how", "work"), Literal("technology"), Literal("science"), Literal("function"),
           Gap("panel", "work")]),
    NoEffect)

  const EnvironmentRule := Rule(Environment,
    AnyOf([Literal("environment"), Literal("climate"), Literal("carbon"), Literal("green"),
           Literal("clean"), Literal("planet"), Literal("eco"), Literal("sustainable"),
           Literal("pollution")]),
    NoEffect)

  const ThanksRule := Rule(Thanks,
    AnyOf([Literal("thank"), Literal("thanks"), Literal("appreciate")]),
    NoEffect)

  const GoodbyeRule := Rule(Goodbye,
    AnyOf([Literal("bye"), Literal("goodbye"), Literal("see you"), Literal("gotta go"), Literal("later")]),
    NoEffect)

  const FinancingRule := Rule(Financing,
    AnyOf([Literal("financing"), Literal("loan"), Literal("payment plan"), Literal("monthly payment")]),
    NoEffect)

  const RoofRule := Rule(Roof,
    AnyOf([Literal("roof"), Literal("installation"), Literal("install")]),
    NoEffect)

  const Rules: seq<Rule> := [
    CalculatorRule, ScheduleRule, ContactRule, GreetingRule, BenefitsRule, CostRule,
    HowItWorksRule, EnvironmentRule, ThanksRule, GoodbyeRule, FinancingRule, RoofRule
  ]

  /** The position of an intent's rule in `Rules`; `|Rules|` for `Redirect`. */
  function RuleIndex(intent: Intent): (k: nat)
    ensures k <= |Rules|
    ensures k < |Rules| <==> intent != Redirect
    ensures k < |Rules| ==> Rules[k].intent == intent
    ensures forall j :: 0 <= j < |Rules| && Rules[j].intent == intent ==> j == k
  {
    match intent
    case Calculator => 0
    case Schedule => 1
    case Contact => 2
    case Greeting => 3
    case Benefits => 4
    case Cost => 5
    case HowItWorks => 6
    case Environment => 7
    case Thanks => 8
    case Goodbye => 9
    case Financing => 10
    case Roof => 11
    case Redirect => 12
  }

  /** The first rule, in priority order, whose pattern matches `msg`. */
  function FirstMatch(rules: seq<Rule>, msg: string): (m: Option<nat>)
    ensures m.Some? ==> m.value < |rules| && Matches(rules[m.value].pattern, msg)
    ensures m.Some? ==> forall j :: 0 <= j < m.value ==> !Matches(rules[j].pattern, msg)
    ensures m.None? ==> forall j :: 0 <= j < |rules| ==> !Matches(rules[j].pattern, msg)
  {
    if |rules| == 0 then None
    else if Matches(rules[0].pattern, msg) then Some(0)
    else match FirstMatch(rules[1..], msg)
      case None => None
      case Some(k) => Some(k + 1)
  }

  /** `Math.floor(r * n)` for a value `r` of `Math.random()`. */
  function PickIndex(n: nat, r: real): (k: nat)
    requires n > 0 && 0.0 <= r < 1.0
    ensures k < n
  {
    assert r * n as real < n as real by {
      assert (1.0 - r) * n as real > 0.0;
    }
    (r * n as real).Floor
  }

  /** Every candidate can be drawn: the random value `k / n` picks index `k`. */
  lemma PickIndexReaches(n: nat, k: nat)
    requires k < n
    ensures 0.0 <= k as real / n as real < 1.0
    ensures PickIndex(n, k as real / n as real) == k
  {
    assert (k as real / n as real) * n as real == k as real;
  }

  /** `getResponse`: the reply to `userMessage` when `Math.random()` yields
      `r`. The message is lower-cased; the rule at `RuleIndex(intent)` is
      the first that matches and no earlier rule matches (no rule at all
      for `Redirect`); the text is one of that intent's candidates, and
      only the rule's own effect is requested. */
  function Respond(userMessage: string, r: real): (reply: Reply)
    requires 0.0 <= r < 1.0
    ensures var msg, k := Lower(userMessage), RuleIndex(reply.intent);
      && (forall j :: 0 <= j < k ==> !Matches(Rules[j].pattern, msg))
      && (k < |Rules| ==> Matches(Rules[k].pattern, msg) && reply.effect == Rules[k].effect)
      && (k == |Rules| ==> reply.effect == NoEffect)
    ensures reply.text in Candidates(reply.intent)
  {
    var msg := Lower(userMessage);
    match FirstMatch(Rules, msg)
    case Some(k) =>
      RulesInIntentOrder();
      var cs := Candidates(Rules[k].intent);
      Reply(Rules[k].intent, cs[PickIndex(|cs|, r)], Rules[k].effect)
    case None =>
      Reply(Redirect, Redirects[PickIndex(|Redirects|, r)], NoEffect)
  }

  lemma RulesInIntentOrder()
    ensures forall k :: 0 <= k < |Rules| ==> RuleIndex(Rules[k].intent) == k
  {
    assert Rules[0].intent == Calculator && Rules[1].intent == Schedule && Rules[2].intent == Contact;
    assert Rules[3].intent == Greeting && Rules[4].intent == Benefits && Rules[5].intent == Cost;
    assert Rules[6].intent == HowItWorks && Rules[7].intent == Environment && Rules[8].intent == Thanks;
    assert Rules[9].intent == Goodbye && Rules[10].intent == Financing && Rules[11].intent == Roof;
  }

  /** Which rule answers does not depend on the random draw; only the
      choice among that rule's candidates does. */
  lemma IntentIgnoresRandom(userMessage: string, r1: real, r2: real)
    requires 0.0 <= r1 < 1.0 && 0.0 <= r2 < 1.0
    ensures Respond(userMessage, r1).intent == Respond(userMessage, r2).intent
    ensures Respond(userMessage, r1).effect == Respond(userMessage, r2).effect
  {
    var a, b := Respond(userMessage, r1), Respond(userMessage, r2);
    var ka, kb := RuleIndex(a.intent), RuleIndex(b.intent);
    assert ka == kb;
  }

  /** The reply text always comes from the answering rule's candidates, and
      every one of those candidates is drawn for some value of the random
      number. */
  lemma RepliesAreExactlyCandidates(userMessage: string, r: real, t: string)
    requires 0.0 <= r < 1.0
    ensures Respond(userMessage, r).text in Candidates(Respond(userMessage, r).intent)
    ensures t in Candidates(Respond(userMessage, r).intent) ==>
      exists r' :: 0.0 <= r' < 1.0 && Respond(userMessage, r').text == t
  {
    var intent := Respond(userMessage, r).intent;
    var cs := Candidates(intent);
    if t in cs {
      var k :| 0 <= k < |cs| && cs[k] == t;
      PickIndexReaches(|cs|, k);
      var r' := k as real / |cs| as real;
      IntentIgnoresRandom(userMessage, r, r');
    }
  }

  /** First match wins for the calculator rule: a message containing
      "calculat", "savings" or "estimate", or "how much" followed on the same
      line by "save", gets the calculator reply and opens the calculator,
      whatever cost, scheduling or contact words it also holds. */
  lemma CalculatorWins(userMessage: string, r: real)
    requires 0.0 <= r < 1.0
    requires var msg := Lower(userMessage);
      || Contains(msg, "calculat") || Contains(msg, "savings") || Contains(msg, "estimate")
      || FollowedBy(msg, "how much", "save")
    ensures Respond(userMessage, r) == Reply(Calculator, CalculatorReply, ShowCalculator)
  {
    var msg := Lower(userMessage);
    var alts := CalculatorRule.pattern.alts;
    if Contains(msg, "calculat") {
      assert AltMatches(alts[0], msg);
    } else if Contains(msg, "savings") {
      assert AltMatches(alts[1], msg);
    } else if Contains(msg, "estimate") {
      assert AltMatches(alts[2], msg);
    } else {
      assert AltMatches(alts[3], msg);
    }
    assert Matches(Rules[0].pattern, msg);
  }

  /** Only the scheduling and contact rules open the contact form, and only
      the calculator rule opens the calculator. */
  lemma EffectsByIntent(userMessage: string, r: real)
    requires 0.0 <= r < 1.0
    ensures var reply := Respond(userMessage, r);
      && (reply.effect == OpenContactForm <==> reply.intent in {Schedule, Contact})
      && (reply.effect == ShowCalculator <==> reply.intent == Calculator)
  {
    RuleEffects();
  }

  /** Rule by rule: the contact form belongs to the schedule and contact
      rules, the calculator to the calculator rule. */
  lemma RuleEffects()
    ensures forall k :: 0 <= k < |Rules| ==>
      && (Rules[k].effect == OpenContactForm <==> Rules[k].intent in {Schedule, Contact})
      && (Rules[k].effect == ShowCalculator <==> Rules[k].intent == Calculator)
  {
  }

  /** The financing rule is shadowed by the cost rule, which already reacts
      to "pay" and "financing": of its four alternatives only "loan" can
      ever select it. */
  lemma FinancingOnlyByLoan(userMessage: string, r: real)
    requires 0.0 <= r < 1.0
    ensures var msg := Lower(userMessage);
      Respond(userMessage, r).intent == Financing ==>
        && Contains(msg, "loan")
        && !Contains(msg, "pay") && !Contains(msg, "financing") && !Contains(msg, "payment plan")
        && !Contains(msg, "monthly payment")
  {
    var msg := Lower(userMessage);
    if Respond(userMessage, r).intent == Financing {
      CostBeforeFinancing();
      NoCostWordsNoPay(msg);
      ShadowedFinancingMatch(msg);
    }
  }

  /** The cost rule is tried before the financing rule. */
  lemma CostBeforeFinancing()
    ensures RuleIndex(Financing) == 10 && Rules[5] == CostRule && Rules[10] == FinancingRule
  {
  }

  lemma NoCostWordsNoPay(msg: string)
    requires !Matches(CostRule.pattern, msg)
    ensures !Contains(msg, "pay") && !Contains(msg, "financing")
  {
    var alts := CostRule.pattern.alts;
    assert !AltMatches(alts[4], msg) && !AltMatches(alts[8], msg);
  }

  lemma ShadowedFinancingMatch(msg: string)
    requires Matches(FinancingRule.pattern, msg)
    requires !Contains(msg, "pay") && !Contains(msg, "financing")
    ensures Contains(msg, "loan")
    ensures !Contains(msg, "payment plan") && !Contains(msg, "monthly payment")
  {
    PhrasesContainPay(msg);
    var alts := FinancingRule.pattern.alts;
    assert !AltMatches(alts[0], msg) && !AltMatches(alts[2], msg) && !AltMatches(alts[3], msg);
  }

  /** Both payment phrases contain "pay". */
  lemma PhrasesContainPay(msg: string)
    ensures Contains(msg, "payment plan") ==> Contains(msg, "pay")
    ensures Contains(msg, "monthly payment") ==> Contains(msg, "pay")
  {
    if Contains(msg, "payment plan") {
      assert "payment plan"[0..3] == "pay";
      ContainsSlice(msg, "payment plan", 0, 3);
    }
    if Contains(msg, "monthly payment") {
      assert "monthly payment"[8..11] == "pay";
      ContainsSlice(msg, "monthly payment", 8, 11);
    }
  }

  /** Conversely, "loan" selects the financing rule whenever no earlier rule
      matches. */
  lemma LoanReachesFinancing(userMessage: string, r: real)
    requires 0.0 <= r < 1.0
    requires var msg := Lower(userMessage);
      Contains(msg, "loan") && forall j :: 0 <= j < 10 ==> !Matches(Rules[j].pattern, msg)
    ensures Respond(userMessage, r) == Reply(Financing, FinancingReply, NoEffect)
  {
    var msg := Lower(userMessage);
    assert AltMatches(FinancingRule.pattern.alts[1], msg);
    assert Matches(Rules[10].pattern, msg);
  }

  /** The greeting pattern needs a whole word: "hi" at the start of a line,
      after white space, or before "!" greets, but "hi" inside "this" or
      "hiking" does not. */
  lemma GreetingBoundary()
    ensures Matches(GreetingRule.pattern, "hi!")
    ensures Matches(GreetingRule.pattern, "oh hi there")
    ensures !Matches(GreetingRule.pattern, "this")
    ensures !Matches(GreetingRule.pattern, "hiking")
  {
    var words := GreetingRule.pattern.words;
    assert WordAt("hi!", words[0], 0);
    assert WordAt("oh hi there", words[0], 3);
    NoGreetingWordIn("this");
    NoGreetingWordIn("hiking");
  }

  /** No greeting word stands alone in `msg`, checked one start at a time
      through the first three characters of each word. */
  lemma NoGreetingWordIn(msg: string)
    requires msg == "this" || msg == "hiking"
    ensures !Matches(GreetingRule.pattern, msg)
  {
    var words := GreetingRule.pattern.words;
    forall k, i | 0 <= k < |words| && 0 <= i <= |msg|
      ensures !WordAt(msg, words[k], i)
    {
      LeadingChars(msg, words[k], i);
    }
  }

  /** An occurrence of `w` starts with `w`'s first three characters. */
  lemma LeadingChars(msg: string, w: string, i: int)
    ensures OccursAt(msg, w, i) && |w| >= 3 ==>
      msg[i] == w[0] && msg[i + 1] == w[1] && msg[i + 2] == w[2]
    ensures OccursAt(msg, w, i) && |w| == 2 ==> msg[i] == w[0] && msg[i + 1] == w[1]
  {
    if OccursAt(msg, w, i) && |w| >= 2 {
      assert msg[i..i + |w|] == w;
    }
  }

  /** No rule matches the empty message, so it gets a redirect. */
  lemma EmptyMessageRedirects(r: real)
    requires 0.0 <= r < 1.0
    ensures Respond("", r).intent == Redirect
    ensures Respond("", r).text in Redirects && Respond("", r).effect == NoEffect
  {
    RulesHaveNonEmptyLiterals();
    forall j | 0 <= j < |Rules|
      ensures !Matches(Rules[j].pattern, "")
    {
      NothingMatchesEmpty(Rules[j].pattern);
    }
  }

  lemma RulesHaveNonEmptyLiterals()
    ensures forall j :: 0 <= j < |Rules| ==> NonEmptyLiterals(Rules[j].pattern)
  {
    assert NonEmptyLiterals(CalculatorRule.pattern);
    assert NonEmptyLiterals(ScheduleRule.pattern);
    assert NonEmptyLiterals(ContactRule.pattern);
    assert NonEmptyLiterals(GreetingRule.pattern);
    assert NonEmptyLiterals(BenefitsRule.pattern);
    assert NonEmptyLiterals(CostRule.pattern);
    assert NonEmptyLiterals(HowItWorksRule.pattern);
    assert NonEmptyLiterals(EnvironmentRule.pattern);
    assert NonEmptyLiterals(ThanksRule.pattern);
    assert NonEmptyLiterals(GoodbyeRule.pattern);
    assert NonEmptyLiterals(FinancingRule.pattern);
    assert NonEmptyLiterals(RoofRule.pattern);
  }

  /** Every literal a pattern mentions is non-empty. */
  predicate NonEmptyLiterals(p: Pattern) {
    match p
    case AnyOf(alts) =>
      forall k | 0 <= k < |alts| :: (match alts[k]
        case Literal(w) => w != []
        case Gap(a, b) => a != [] && b != [])
    case WordAtBoundary(words) => forall k | 0 <= k < |words| :: words[k] != []
  }

  lemma NothingMatchesEmpty(p: Pattern)
    requires NonEmptyLiterals(p)
    ensures !Matches(p, "")
  {
    match p
    case AnyOf(alts) =>
      forall k | 0 <= k < |alts| ensures !AltMatches(alts[k], "") {
        match alts[k]
        case Literal(w) =>
        case Gap(a, b) =>
      }
    case WordAtBoundary(words) =>
  }
}
