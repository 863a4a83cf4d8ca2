/** ContextManager: the time-windowed, size-capped interaction history that
    feeds the prompt, with per-expression counters that only grow. */
module InteractionHistory {
  import opened Text
  import opened HumanExpressions
  import opened Numeric

  /** InteractionContext; the timestamp is the time of the call that added it. */
  datatype InteractionContext = InteractionContext(
    timestamp: real,
    humanExpression: ExpressionType,
    catResponse: string,
    notes: string)

  /** The history entries at or after the cutoff, in their original order
      (List.RemoveAll of the older ones). */
  function KeepRecent(h: seq<InteractionContext>, cutoff: real): (r: seq<InteractionContext>)
    ensures |r| <= |h|
    ensures forall i :: 0 <= i < |r| ==> r[i].timestamp >= cutoff && r[i] in h
    decreases |h|
  {
    if h == [] then []
    else (if h[0].timestamp >= cutoff then [h[0]] else []) + KeepRecent(h[1..], cutoff)
  }

  /** Filtering commutes with concatenation, so survivors keep their relative order. */
  lemma {:induction false} KeepRecentAppend(a: seq<InteractionContext>, b: seq<InteractionContext>, cutoff: real)
    ensures KeepRecent(a + b, cutoff) == KeepRecent(a, cutoff) + KeepRecent(b, cutoff)
    decreases |a|
  {
    if a == [] {
      assert a + b == b;
    } else {
      assert (a + b)[1..] == a[1..] + b;
      KeepRecentAppend(a[1..], b, cutoff);
      KeepRecentCons(a + b, cutoff);
      KeepRecentCons(a, cutoff);
      var head := if a[0].timestamp >= cutoff then [a[0]] else [];
      AppendAssoc(head, KeepRecent(a[1..], cutoff), KeepRecent(b, cutoff));
    }
  }

  lemma KeepRecentCons(h: seq<InteractionContext>, cutoff: real)
    requires h != []
    ensures KeepRecent(h, cutoff) == (if h[0].timestamp >= cutoff then [h[0]] else []) + KeepRecent(h[1..], cutoff)
  {
  }

  lemma AppendAssoc(x: seq<InteractionContext>, y: seq<InteractionContext>, z: seq<InteractionContext>)
    ensures x + (y + z) == (x + y) + z
  {
  }

  /** Every entry at or after the cutoff survives. */
  lemma {:induction false} KeepRecentKeepsRecent(h: seq<InteractionContext>, cutoff: real, x: InteractionContext)
    requires x in h && x.timestamp >= cutoff
    ensures x in KeepRecent(h, cutoff)
    decreases |h|
  {
    if h[0] != x {
      KeepRecentKeepsRecent(h[1..], cutoff, x);
    }
  }

  /** The oldest timestamp the context window keeps. */
  function Cutoff(now: real, windowMinutes: real): real
  {
    now - windowMinutes * 60.0
  }

  /** TrimHistory: drop entries older than the context window, then, if still
      too many, drop the oldest ones down to maxHistorySize. */
  function Trim(h: seq<InteractionContext>, now: real, windowMinutes: real, maxHistorySize: nat): (r: seq<InteractionContext>)
    ensures |r| <= maxHistorySize
    ensures forall i :: 0 <= i < |r| ==> r[i].timestamp >= Cutoff(now, windowMinutes)
  {
    var kept := KeepRecent(h, Cutoff(now, windowMinutes));
    if |kept| > maxHistorySize then kept[|kept| - maxHistorySize..] else kept
  }

  /** Size trimming removes only from the front: the result is the newest
      part of the window-filtered history. */
  lemma TrimKeepsNewest(h: seq<InteractionContext>, now: real, windowMinutes: real, maxHistorySize: nat)
    ensures var kept := KeepRecent(h, Cutoff(now, windowMinutes));
      var r := Trim(h, now, windowMinutes, maxHistorySize);
      |r| == (if |kept| < maxHistorySize then |kept| else maxHistorySize) && r == kept[|kept| - |r|..]
  {
  }

  /** The manager's two collections. */
  datatype History = History(entries: seq<InteractionContext>, frequency: map<ExpressionType, int>)

  const EmptyHistory := History([], map[])

  /** The frequency of an expression as the dictionary reports it (0 if absent). */
  function Frequency(f: map<ExpressionType, int>, e: ExpressionType): int
  {
    if e in f then f[e] else 0
  }

  /** AddInteraction: append, count the expression, trim. */
  function Add(s: History, e: ExpressionType, response: string, notes: string, now: real,
               windowMinutes: real, maxHistorySize: nat): History
  {
    History(Trim(s.entries + [InteractionContext(now, e, response, notes)], now, windowMinutes, maxHistorySize),
            s.frequency[e := Frequency(s.frequency, e) + 1])
  }

  /** Adding counts the expression once; no count ever goes down (trimming
      does not touch the counters). */
  lemma AddCounts(s: History, e: ExpressionType, response: string, notes: string, now: real,
                  windowMinutes: real, maxHistorySize: nat, other: ExpressionType)
    ensures var r := Add(s, e, response, notes, now, windowMinutes, maxHistorySize);
      Frequency(r.frequency, e) == Frequency(s.frequency, e) + 1
      && (other != e ==> Frequency(r.frequency, other) == Frequency(s.frequency, other))
      && r.frequency.Keys == s.frequency.Keys + {e}
  {
  }

  /** A new interaction is the last entry afterwards, unless the window has
      already passed it or the cap is 0. */
  lemma AddAppends(s: History, e: ExpressionType, response: string, notes: string, now: real,
                   windowMinutes: real, maxHistorySize: nat)
    requires windowMinutes >= 0.0 && maxHistorySize > 0
    ensures var r := Add(s, e, response, notes, now, windowMinutes, maxHistorySize);
      |r.entries| > 0 && r.entries[|r.entries| - 1] == InteractionContext(now, e, response, notes)
  {
    var cutoff := Cutoff(now, windowMinutes);
    assert now >= cutoff by { MulNonNegative(windowMinutes, 60.0); }
    var x := InteractionContext(now, e, response, notes);
    KeepRecentAppend(s.entries, [x], cutoff);
    assert KeepRecent([x], cutoff) == [x];
  }

  /** The message for an empty history. */
  const NoHistoryMessage: string := "No interaction history yet."

  /** One summary line, as AppendLine writes it. */
  function SummaryLine(c: InteractionContext): string
  {
    "- Human: " + Name(c.humanExpression) + ", Cat: " + c.catResponse + NewLine
  }

  function Lines(h: seq<InteractionContext>): string
    decreases |h|
  {
    if h == [] then "" else Lines(h[..|h| - 1]) + SummaryLine(h[|h| - 1])
  }

  /** The index the summary starts at: max(0, count - maxEntries). */
  function SummaryStart(count: nat, maxEntries: int): (r: nat)
    ensures maxEntries >= 0 ==> r <= count
    ensures maxEntries > 0 && count > 0 ==> r < count
  {
    if count - maxEntries > 0 then count - maxEntries else 0
  }

  /** GetContextSummary: the fixed message for an empty history, otherwise one
      line for each of the last maxEntries entries, oldest first. */
  function ContextSummary(h: seq<InteractionContext>, maxEntries: int): string
  {
    if |h| == 0 then NoHistoryMessage
    else if SummaryStart(|h|, maxEntries) >= |h| then ""
    else Lines(h[SummaryStart(|h|, maxEntries)..])
  }

  /** Extending a slice by one entry adds that entry's line. */
  lemma LinesSnoc(h: seq<InteractionContext>, lo: nat, i: nat)
    requires lo <= i < |h|
    ensures Lines(h[lo..i + 1]) == Lines(h[lo..i]) + SummaryLine(h[i])
  {
    var t := h[lo..i + 1];
    assert t[..|t| - 1] == h[lo..i] && t[|t| - 1] == h[i];
  }

  lemma {:induction false} LinesEmptyIff(h: seq<InteractionContext>)
    ensures Lines(h) == "" <==> h == []
    decreases |h|
  {
    if h != [] {
      assert |SummaryLine(h[|h| - 1])| > 0;
    }
  }

  /** The summary is empty exactly when there is history but maxEntries is not
      positive; in particular it is never empty for maxEntries > 0. */
  lemma SummaryEmptyIff(h: seq<InteractionContext>, maxEntries: int)
    ensures ContextSummary(h, maxEntries) == "" <==> |h| > 0 && maxEntries <= 0
  {
    if |h| > 0 && SummaryStart(|h|, maxEntries) < |h| {
      LinesEmptyIff(h[SummaryStart(|h|, maxEntries)..]);
    }
  }

  /** With a positive maxEntries the summary ends with the newest entry's line. */
  lemma SummaryEndsWithNewest(h: seq<InteractionContext>, maxEntries: int)
    requires |h| > 0 && maxEntries > 0
    ensures var s := ContextSummary(h, maxEntries);
      var l := SummaryLine(h[|h| - 1]);
      |l| <= |s| && s[|s| - |l|..] == l
  {
    var tail := h[SummaryStart(|h|, maxEntries)..];
    assert tail[|tail| - 1] == h[|h| - 1];
  }

  /** GetExpressionTrends: empty for an empty history; otherwise each counted
      expression's count divided by the number of entries now held. */
  function Trends(s: History): (r: map<ExpressionType, real>)
    ensures |s.entries| == 0 ==> r == map[]
    ensures |s.entries| > 0 ==> r.Keys == s.frequency.Keys
  {
    if |s.entries| == 0 then map[]
    else map e | e in s.frequency :: s.frequency[e] as real / |s.entries| as real
  }

  /** Because counters survive trimming, a trend can exceed 1: with a cap of
      one entry, two Happy interactions leave one entry and a count of 2. */
  lemma TrendCanExceedOne()
    ensures var s1 := Add(EmptyHistory, Happy, "purr", "", 0.0, 10.0, 1);
      var s2 := Add(s1, Happy, "purr", "", 1.0, 10.0, 1);
      |s2.entries| == 1 && Trends(s2)[Happy] == 2.0
  {
    var s1 := Add(EmptyHistory, Happy, "purr", "", 0.0, 10.0, 1);
    var x1 := InteractionContext(0.0, Happy, "purr", "");
    var x2 := InteractionContext(1.0, Happy, "purr", "");
    assert KeepRecent([x1], -600.0) == [x1];
    assert s1.entries == [x1];
    assert [x1] + [x2] == [x1, x2];
    KeepRecentAppend([x1], [x2], 1.0 - 600.0);
    assert KeepRecent([x2], 1.0 - 600.0) == [x2];
  }

  class ContextManager {
    const maxHistorySize: nat
    const contextWindowMinutes: real
    var interactionHistory: seq<InteractionContext>
    var expressionFrequency: map<ExpressionType, int>

    function State(): History
      reads this
    {
      History(interactionHistory, expressionFrequency)
    }

    constructor (maxSize: nat, windowMinutes: real)
      ensures State() == EmptyHistory
      ensures maxHistorySize == maxSize && contextWindowMinutes == windowMinutes
    {
      maxHistorySize := maxSize;
      contextWindowMinutes := windowMinutes;
      interactionHistory := [];
      expressionFrequency := map[];
    }

    method AddInteraction(e: ExpressionType, catResponse: string, now: real, notes: string := "")
      modifies this
      ensures State() == Add(old(State()), e, catResponse, notes, now, contextWindowMinutes, maxHistorySize)
      ensures |interactionHistory| <= maxHistorySize
    {
      interactionHistory := interactionHistory + [InteractionContext(now, e, catResponse, notes)];
      // A missing key starts at 0 before the increment.
      expressionFrequency := expressionFrequency[e := Frequency(expressionFrequency, e) + 1];
      TrimHistory(now);
    }

    method TrimHistory(now: real)
      modifies this
      ensures interactionHistory == Trim(old(interactionHistory), now, contextWindowMinutes, maxHistorySize)
      ensures expressionFrequency == old(expressionFrequency)
    {
      var cutoffTime := Cutoff(now, contextWindowMinutes);
      interactionHistory := KeepRecent(interactionHistory, cutoffTime);
      if |interactionHistory| > maxHistorySize {
        var removeCount := |interactionHistory| - maxHistorySize;
        interactionHistory := interactionHistory[removeCount..];
      }
    }

    method GetContextSummary(maxEntries: int := 10) returns (summary: string)
      ensures summary == ContextSummary(interactionHistory, maxEntries)
      ensures |interactionHistory| == 0 ==> summary == NoHistoryMessage
    {
      if |interactionHistory| == 0 {
        return NoHistoryMessage;
      }
      summary := "";
      var startIndex := SummaryStart(|interactionHistory|, maxEntries);
      if startIndex >= |interactionHistory| {
        return;
      }
      for i := startIndex to |interactionHistory|
        invariant summary == Lines(interactionHistory[startIndex..i])
      {
        LinesSnoc(interactionHistory, startIndex, i);
        summary := summary + SummaryLine(interactionHistory[i]);
      }
      assert interactionHistory[startIndex..|interactionHistory|] == interactionHistory[startIndex..];
    }

    method GetExpressionTrends() returns (trends: map<ExpressionType, real>)
      ensures trends == Trends(State())
    {
      trends := map[];
      var total := |interactionHistory|;
      if total == 0 {
        return;
      }
      var pending := expressionFrequency.Keys;
      while pending != {}
        invariant pending <= expressionFrequency.Keys
        invariant trends.Keys == expressionFrequency.Keys - pending
        invariant forall e :: e in trends ==> trends[e] == expressionFrequency[e] as real / total as real
        decreases pending
      {
        var e :| e in pending;
        trends := trends[e := expressionFrequency[e] as real / total as real];
        pending := pending - {e};
      }
    }

    /** ClearHistory empties both the history and the counters. */
    method ClearHistory()
      modifies this
      ensures State() == EmptyHistory
    {
      interactionHistory := [];
      expressionFrequency := map[];
    }
  }
}
