/** The quick-reply buttons shown under the chat. After every bot message
    the lower-cased text of that message picks one of four fixed sets of
    four buttons, by keyword group in priority order. A button either sends
    a canned question or opens the calculator or the contact form. */
module Suggestions {
  import opened Text

  datatype Action = Ask(query: string) | OpenCalculator | OpenContact

  datatype Suggestion = Suggestion(display: string, action: Action)

  /** The keyword groups, in the order they are tested. */
  datatype Group = CostGroup | ScheduleGroup | CalculatorGroup | DefaultGroup

  function Rank(g: Group): nat {
    match g
    case CostGroup => 0
    case ScheduleGroup => 1
    case CalculatorGroup => 2
    case DefaultGroup => 3
  }

  /** The words that select a group; the default group has none. */
  function Keywords(g: Group): seq<string> {
    match g
    case CostGroup => ["cost", "price", "afford"]
    case ScheduleGroup => ["schedule", "appointment", "consult"]
    case CalculatorGroup => ["calculator", "savings"]
    case DefaultGroup => []
  }

  /** `context` includes at least one of `words`. */
  predicate MentionsAny(context: string, words: seq<string>) {
    exists k | 0 <= k < |words| :: Contains(context, words[k])
  }

  /** The group `updateSuggestions` selects: the first group, in priority
      order, one of whose keywords the context includes, and the default
      group when it includes none. */
  function GroupFor(context: string): (g: Group)
    ensures g != DefaultGroup ==> MentionsAny(context, Keywords(g))
    ensures forall h :: Rank(h) < Rank(g) ==> !MentionsAny(context, Keywords(h))
  {
    if Contains(context, "cost") || Contains(context, "price") || Contains(context, "afford") then
      assert Contains(context, Keywords(CostGroup)[0]) || Contains(context, Keywords(CostGroup)[1])
          || Contains(context, Keywords(CostGroup)[2]);
      CostGroup
    else if Contains(context, "schedule") || Contains(context, "appointment") || Contains(context, "consult") then
      assert Contains(context, Keywords(ScheduleGroup)[0]) || Contains(context, Keywords(ScheduleGroup)[1])
          || Contains(context, Keywords(ScheduleGroup)[2]);
      ScheduleGroup
    else if Contains(context, "calculator") || Contains(context, "savings") then
      assert Contains(context, Keywords(CalculatorGroup)[0]) || Contains(context, Keywords(CalculatorGroup)[1]);
      CalculatorGroup
    else
      DefaultGroup
  }

  const CostSet: seq<Suggestion> := [
    Suggestion("💳 Financing options", Ask("How can I afford solar panels?")),
    Suggestion("🧮 Calculate savings", OpenCalculator),
    Suggestion("⏱️ Payback period", Ask("How long until solar pays for itself?")),
    Suggestion("📧 Contact us", OpenContact)
  ]

  const ScheduleSet: seq<Suggestion> := [
    Suggestion("📧 Fill contact form", OpenContact),
    Suggestion("💬 More questions", Ask("I have more questions first")),
    Suggestion("💰 Costs", Ask("How much do solar panels cost?")),
    Suggestion("🧮 Calculator", OpenCalculator)
  ]

  const CalculatorSet: seq<Suggestion> := [
    Suggestion("📅 Book appointment", Ask("Schedule a consultation")),
    Suggestion("💡 Why solar?", Ask("Why should I get solar panels?")),
    Suggestion("💰 Financing", Ask("What financing options are available?")),
    Suggestion("📧 Contact", OpenContact)
  ]

  const DefaultSet: seq<Suggestion> := [
    Suggestion("💡 Why solar?", Ask("Why should I get solar panels?")),
    Suggestion("💰 Costs", Ask("How much do solar panels cost?")),
    Suggestion("📅 Book appointment", Ask("Schedule a consultation")),
    Suggestion("🧮 Calculate savings", OpenCalculator)
  ]

  function SetFor(g: Group): seq<Suggestion> {
    match g
    case CostGroup => CostSet
    case ScheduleGroup => ScheduleSet
    case CalculatorGroup => CalculatorSet
    case DefaultGroup => DefaultSet
  }

  /** The buttons shown after a bot message whose lower-cased text is
      `context`: always four, the fixed set of the selected group. */
  function SuggestionsFor(context: string): (items: seq<Suggestion>)
    ensures |items| == 4
    ensures items == SetFor(GroupFor(context))
  {
    SetFor(GroupFor(context))
  }

  /** The empty context that clearing the chat passes in mentions no
      keyword, so it yields the default set. */
  lemma EmptyContextIsDefault()
    ensures GroupFor("") == DefaultGroup
    ensures SuggestionsFor("") == DefaultSet
  {
  }

  /** A context that mentions cost, price or affordability gets the cost set
      even when it also mentions scheduling or savings. */
  lemma CostWordsTakePriority(context: string, w: string)
    requires w in Keywords(CostGroup) && Contains(context, w)
    ensures SuggestionsFor(context) == CostSet
  {
  }
}
