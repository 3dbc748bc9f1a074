/** In-memory analytics: a map from event name to count. `trackEvent`
    bumps a counter only when the event's name is already one of the map's
    keys; any other name is logged and otherwise ignored. */
module Analytics {

  /** The keys of the page's counter map. */
  const CounterNames: set<string> :=
    {"messagessent", "calculatorUsed", "contactFormOpened", "chatExported", "themeToggled", "voiceUsed"}

  const InitialCounters: map<string, nat> := map name | name in CounterNames :: 0

  /** Every event name the page passes to `trackEvent`. */
  const ReportedEvents: set<string> :=
    {"sessionStarted", "voiceUsed", "themeToggled", "contactFormOpened", "calculatorUsed",
     "calculationCompleted", "chatExported", "chatCleared", "messageSent"}

  /** The counters after `trackEvent(name)`: the counter called `name`, if
      there is one, goes up by one; the keys and every other counter stay. */
  function Tracked(counters: map<string, nat>, name: string): (r: map<string, nat>)
    ensures r.Keys == counters.Keys
    ensures forall k :: k in counters ==> r[k] == counters[k] + (if k == name then 1 else 0)
  {
    if name in counters then counters[name := counters[name] + 1] else counters
  }

  /** The counters after reporting `names` one after another. The keys stay
      the same and no counter goes down. */
  function TrackAll(counters: map<string, nat>, names: seq<string>): (r: map<string, nat>)
    ensures r.Keys == counters.Keys
    ensures forall k :: k in counters ==> r[k] >= counters[k]
    decreases |names|
  {
    if |names| == 0 then counters else TrackAll(Tracked(counters, names[0]), names[1..])
  }

  /** How often `name` occurs in `names`. */
  function Occurrences(names: seq<string>, name: string): nat {
    if |names| == 0 then 0
    else (if names[0] == name then 1 else 0) + Occurrences(names[1..], name)
  }

  /** After any run of events each counter has grown by exactly the number
      of times its own name was reported, so no counter ever decreases and
      the set of counters never changes. */
  lemma {:induction false} TrackAllCounts(counters: map<string, nat>, names: seq<string>)
    ensures TrackAll(counters, names).Keys == counters.Keys
    ensures forall k :: k in counters ==>
      TrackAll(counters, names)[k] == counters[k] + Occurrences(names, k)
    decreases |names|
  {
    if |names| > 0 {
      TrackAllCounts(Tracked(counters, names[0]), names[1..]);
    }
  }

  lemma {:induction false} AbsentNameNeverCounted(names: seq<string>, name: string)
    requires forall k :: 0 <= k < |names| ==> names[k] in ReportedEvents
    requires name !in ReportedEvents
    ensures Occurrences(names, name) == 0
    decreases |names|
  {
    if |names| > 0 {
      AbsentNameNeverCounted(names[1..], name);
    }
  }

  /** The page reports sent messages as "messageSent" while the counter is
      called "messagessent": whatever events are reported, that counter
      stays at zero. */
  lemma MessagesSentStaysZero(names: seq<string>)
    requires forall k :: 0 <= k < |names| ==> names[k] in ReportedEvents
    ensures "messagessent" in TrackAll(InitialCounters, names)
    ensures TrackAll(InitialCounters, names)["messagessent"] == 0
  {
    NeverReported();
    assert "messagessent" in InitialCounters;
    TrackAllCounts(InitialCounters, names);
    AbsentNameNeverCounted(names, "messagessent");
  }

  /** No event the page reports is called "messagessent". */
  lemma NeverReported()
    ensures "messagessent" !in ReportedEvents
  {
    var name := "messagessent";
    assert name != "sessionStarted" && name != "voiceUsed" && name != "contactFormOpened";
    assert name != "calculatorUsed" && name != "calculationCompleted" && name != "chatCleared";
    assert name != "messageSent";
    assert name[0] != "themeToggled"[0] && name[0] != "chatExported"[0];
  }

  /** "messageSent", "sessionStarted", "calculationCompleted" and
      "chatCleared" name no counter, so reporting them changes nothing. */
  lemma UncountedEvents(counters: map<string, nat>, name: string)
    requires counters.Keys == CounterNames
    requires name in {"messageSent", "sessionStarted", "calculationCompleted", "chatCleared"}
    ensures Tracked(counters, name) == counters
  {
  }
}
