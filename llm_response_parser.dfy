/** LLMResponseParser: pulls an expression, an intensity, a duration and a
    reasoning string out of a language model's reply, falling back to keyword
    classification of free text. The three regular expressions of the source
    are modelled as the scanners they amount to. */
module ResponseParsing {
  import opened Options
  import opened Numeric
  import opened Text
  import opened HumanExpressions

  /** LLMExpressionResponse. */
  datatype ExpressionResponse = ExpressionResponse(
    expression: ExpressionType,
    intensity: real,
    duration: real,
    reasoning: string)

  /** The parameterless constructor. */
  const FreshResponse := ExpressionResponse(Neutral, 0.5, 2.0, "")

  /** The serialized defaults (Neutral, 0.5 and 2). */
  datatype ParserSettings = ParserSettings(defaultExpression: ExpressionType, defaultIntensity: real, defaultDuration: real)

  const DefaultSettings := ParserSettings(Neutral, 0.5, 2.0)

  // ---------------------------------------------------------------------------
  // ExtractJson.

  /** The span from the first '{' to the last '}', or "" when there is no
      such span. */
  function ExtractJson(text: string): (r: string)
  {
    var startIndex := IndexOfCharFrom(text, '{', 0);
    var endIndex := LastIndexOfChar(text, '}');
    if startIndex >= 0 && endIndex > startIndex then text[startIndex..endIndex + 1] else ""
  }

  /** A non-empty result is a contiguous piece of the input that opens with
      the first '{' and closes with the last '}'; the result is empty exactly
      when no '}' follows the first '{'. */
  lemma ExtractJsonSpan(text: string)
    ensures var r := ExtractJson(text);
      r != "" ==> (exists i :: OccursAt(text, r, i)
                     && (forall j :: 0 <= j < i ==> text[j] != '{')
                     && (forall j :: i + |r| <= j < |text| ==> text[j] != '}'))
    ensures var r := ExtractJson(text); r != "" ==> r[0] == '{' && r[|r| - 1] == '}'
    ensures ExtractJson(text) == "" <==>
      forall i, j :: 0 <= i < j < |text| && text[i] == '{' && text[j] == '}' ==> exists k :: 0 <= k < i && text[k] == '{'
  {
    var s := IndexOfCharFrom(text, '{', 0);
    var e := LastIndexOfChar(text, '}');
    if s >= 0 && e > s {
      var r := text[s..e + 1];
      assert OccursAt(text, r, s);
    }
  }

  // ---------------------------------------------------------------------------
  // The regular expressions.

  /** \s, restricted to the ASCII white-space characters. */
  predicate IsSpace(c: char)
  {
    c == ' ' || c == '\t' || c == '\n' || c == '\r' || c == 11 as char || c == 12 as char
  }

  predicate IsNumberChar(c: char)
  {
    ('0' <= c <= '9') || c == '.'
  }

  /** The end of the longest run of white space starting at i. */
  function SkipSpaces(s: string, i: nat): (j: nat)
    requires i <= |s|
    ensures i <= j <= |s| && (j < |s| ==> !IsSpace(s[j]))
    decreases |s| - i
  {
    if i < |s| && IsSpace(s[i]) then SkipSpaces(s, i + 1) else i
  }

  /** The end of the longest run of characters other than '"' starting at i. */
  function SkipNonQuote(s: string, i: nat): (j: nat)
    requires i <= |s|
    ensures i <= j <= |s| && (j < |s| ==> s[j] == '"')
    ensures forall k :: i <= k < j ==> s[k] != '"'
    decreases |s| - i
  {
    if i < |s| && s[i] != '"' then SkipNonQuote(s, i + 1) else i
  }

  /** The end of the longest run of digits and dots starting at i. */
  function SkipNumber(s: string, i: nat): (j: nat)
    requires i <= |s|
    ensures i <= j <= |s| && (j < |s| ==> !IsNumberChar(s[j]))
    ensures forall k :: i <= k < j ==> IsNumberChar(s[k])
    decreases |s| - i
  {
    if i < |s| && IsNumberChar(s[i]) then SkipNumber(s, i + 1) else i
  }

  /** "key" at position i, compared case-insensitively (RegexOptions.IgnoreCase). */
  predicate KeyAt(s: string, key: string, i: nat)
  {
    i + |key| + 2 <= |s| && ToLower(s[i..i + |key| + 2]) == ToLower("\"" + key + "\"")
  }

  /** Where the value starts in `"key"\s*:\s*`, when that prefix matches at i. */
  function ValueStart(s: string, key: string, i: nat): Option<nat>
  {
    if !KeyAt(s, key, i) then None
    else
      var j := SkipSpaces(s, i + |key| + 2);
      if j < |s| && s[j] == ':' then Some(SkipSpaces(s, j + 1)) else None
  }

  /** `"key"\s*:\s*"([^"]+)"` tried at position i: the captured group. */
  function QuotedAt(s: string, key: string, i: nat): (r: Option<string>)
    ensures r.Some? ==> |r.value| > 0 && forall k :: 0 <= k < |r.value| ==> r.value[k] != '"'
  {
    match ValueStart(s, key, i)
    case None => None
    case Some(k) =>
      if k < |s| && s[k] == '"' then
        var e := SkipNonQuote(s, k + 1);
        if e > k + 1 && e < |s| then Some(s[k + 1..e]) else None
      else None
  }

  /** `"key"\s*:\s*([0-9.]+)` tried at position i: the captured group. */
  function NumberAt(s: string, key: string, i: nat): (r: Option<string>)
    ensures r.Some? ==> |r.value| > 0 && forall k :: 0 <= k < |r.value| ==> IsNumberChar(r.value[k])
  {
    match ValueStart(s, key, i)
    case None => None
    case Some(k) =>
      var e := SkipNumber(s, k);
      if e > k then Some(s[k..e]) else None
  }

  /** Regex.Match: the leftmost position at which the pattern matches. */
  function FirstQuoted(s: string, key: string, from: nat): (r: Option<string>)
    ensures r.Some? ==> |r.value| > 0 && forall k :: 0 <= k < |r.value| ==> r.value[k] != '"'
    decreases |s| - from
  {
    if from > |s| then None
    else match QuotedAt(s, key, from)
      case Some(v) => Some(v)
      case None => FirstQuoted(s, key, from + 1)
  }

  function FirstNumber(s: string, key: string, from: nat): (r: Option<string>)
    ensures r.Some? ==> |r.value| > 0 && forall k :: 0 <= k < |r.value| ==> IsNumberChar(r.value[k])
    decreases |s| - from
  {
    if from > |s| then None
    else match NumberAt(s, key, from)
      case Some(v) => Some(v)
      case None => FirstNumber(s, key, from + 1)
  }

  /** Regex.Match returns the leftmost match: when the quoted pattern first
      matches at i, the search from any earlier start finds that capture. */
  lemma {:induction false} FirstQuotedIsLeftmost(s: string, key: string, from: nat, i: nat, v: string)
    requires from <= i && QuotedAt(s, key, i) == Some(v)
    requires forall j :: from <= j < i ==> QuotedAt(s, key, j).None?
    ensures FirstQuoted(s, key, from) == Some(v)
    decreases i - from
  {
    assert KeyAt(s, key, i);
    if from < i {
      assert QuotedAt(s, key, from).None?;
      FirstQuotedIsLeftmost(s, key, from + 1, i, v);
    }
  }

  /** Conversely, a capture found from `from` is the pattern's capture at the
      first position at or after `from` where it matches. */
  lemma {:induction false} FirstQuotedFound(s: string, key: string, from: nat)
    requires FirstQuoted(s, key, from).Some?
    ensures exists i :: from <= i && QuotedAt(s, key, i) == FirstQuoted(s, key, from)
                        && forall j :: from <= j < i ==> QuotedAt(s, key, j).None?
    decreases |s| - from
  {
    if QuotedAt(s, key, from).Some? {
      assert QuotedAt(s, key, from) == FirstQuoted(s, key, from);
    } else {
      FirstQuotedFound(s, key, from + 1);
      var i :| from + 1 <= i && QuotedAt(s, key, i) == FirstQuoted(s, key, from + 1)
               && forall j :: from + 1 <= j < i ==> QuotedAt(s, key, j).None?;
      assert QuotedAt(s, key, i) == FirstQuoted(s, key, from);
    }
  }

  /** The number pattern's leftmost match, as for FirstQuotedIsLeftmost. */
  lemma {:induction false} FirstNumberIsLeftmost(s: string, key: string, from: nat, i: nat, v: string)
    requires from <= i && NumberAt(s, key, i) == Some(v)
    requires forall j :: from <= j < i ==> NumberAt(s, key, j).None?
    ensures FirstNumber(s, key, from) == Some(v)
    decreases i - from
  {
    assert KeyAt(s, key, i);
    if from < i {
      assert NumberAt(s, key, from).None?;
      FirstNumberIsLeftmost(s, key, from + 1, i, v);
    }
  }

  lemma {:induction false} FirstNumberFound(s: string, key: string, from: nat)
    requires FirstNumber(s, key, from).Some?
    ensures exists i :: from <= i && NumberAt(s, key, i) == FirstNumber(s, key, from)
                        && forall j :: from <= j < i ==> NumberAt(s, key, j).None?
    decreases |s| - from
  {
    if NumberAt(s, key, from).Some? {
      assert NumberAt(s, key, from) == FirstNumber(s, key, from);
    } else {
      FirstNumberFound(s, key, from + 1);
      var i :| from + 1 <= i && NumberAt(s, key, i) == FirstNumber(s, key, from + 1)
               && forall j :: from + 1 <= j < i ==> NumberAt(s, key, j).None?;
      assert NumberAt(s, key, i) == FirstNumber(s, key, from);
    }
  }

  /** `"key": "v"` followed by anything is matched at its start, and the
      group is v, for any non-empty v without a quote. */
  lemma QuotedFieldIsCaptured(key: string, v: string, rest: string)
    requires |v| > 0 && forall k :: 0 <= k < |v| ==> v[k] != '"'
    ensures QuotedAt("\"" + key + "\": \"" + v + "\"" + rest, key, 0) == Some(v)
  {
    var s := "\"" + key + "\": \"" + v + "\"" + rest;
    var n := |key| + 2;
    assert s[0..n] == "\"" + key + "\"";
    assert s[n] == ':' && s[n + 1] == ' ' && s[n + 2] == '"';
    assert SkipSpaces(s, n) == n;
    assert SkipSpaces(s, n + 2) == n + 2;
    assert SkipSpaces(s, n + 1) == n + 2;
    assert s[n + 3..n + 3 + |v|] == v;
    assert forall k :: n + 3 <= k < n + 3 + |v| ==> s[k] == v[k - n - 3];
    assert s[n + 3 + |v|] == '"';
    var e := SkipNonQuote(s, n + 3);
    assert e == n + 3 + |v|;
  }

  /** `"key": t` is matched at its start with group t, for any non-empty run
      t of digits and dots that the rest does not extend. */
  lemma NumberFieldIsCaptured(key: string, t: string, rest: string)
    requires |t| > 0 && forall k :: 0 <= k < |t| ==> IsNumberChar(t[k])
    requires rest == [] || !IsNumberChar(rest[0])
    ensures NumberAt("\"" + key + "\": " + t + rest, key, 0) == Some(t)
  {
    var s := "\"" + key + "\": " + t + rest;
    var n := |key| + 2;
    assert s[0..n] == "\"" + key + "\"";
    assert s[n] == ':' && s[n + 1] == ' ' && s[n + 2] == t[0];
    assert SkipSpaces(s, n) == n;
    assert SkipSpaces(s, n + 2) == n + 2;
    assert SkipSpaces(s, n + 1) == n + 2;
    assert s[n + 2..n + 2 + |t|] == t;
    assert forall k :: n + 2 <= k < n + 2 + |t| ==> s[k] == t[k - n - 2];
    assert n + 2 + |t| < |s| ==> s[n + 2 + |t|] == rest[0];
    var e := SkipNumber(s, n + 2);
    assert e == n + 2 + |t|;
  }

  // ---------------------------------------------------------------------------
  // float.TryParse on a run of digits and dots (invariant culture).

  predicate AllDigits(s: string)
  {
    forall k :: 0 <= k < |s| ==> '0' <= s[k] <= '9'
  }

  function DigitsValue(s: string): nat
    requires AllDigits(s)
    decreases |s|
  {
    if s == [] then 0 else DigitsValue(s[..|s| - 1]) * 10 + (s[|s| - 1] as int - '0' as int)
  }

  function Pow10(n: nat): (r: nat)
    ensures r >= 1
  {
    if n == 0 then 1 else 10 * Pow10(n - 1)
  }

  /** Parses digits with at most one decimal point and at least one digit;
      anything else fails, as TryParse does. */
  function ParseDecimal(s: string): (r: Option<real>)
    requires forall k :: 0 <= k < |s| ==> IsNumberChar(s[k])
    ensures r.Some? ==> r.value >= 0.0
    ensures r.Some? ==> exists k :: 0 <= k < |s| && s[k] != '.'
  {
    var p := IndexOfCharFrom(s, '.', 0);
    if p < 0 then
      assert AllDigits(s) by {
        forall k | 0 <= k < |s| ensures '0' <= s[k] <= '9' {
          assert IsNumberChar(s[k]) && s[k] != '.';
        }
      }
      if |s| == 0 then None else Some(DigitsValue(s) as real)
    else
      var whole, fraction := s[..p], s[p + 1..];
      assert AllDigits(whole) by {
        forall k | 0 <= k < |whole| ensures '0' <= whole[k] <= '9' {
          assert whole[k] == s[k] && IsNumberChar(s[k]) && s[k] != '.';
        }
      }
      if !AllDigits(fraction) || (|whole| == 0 && |fraction| == 0) then None
      else Some(DigitsValue(whole) as real + DigitsValue(fraction) as real / Pow10(|fraction|) as real)
  }

  // ---------------------------------------------------------------------------
  // The parser's operations.

  /** ParseExpressionFromText: case-insensitive keyword search, first group
      that matches wins. */
  function ExpressionFromText(settings: ParserSettings, text: string): ExpressionType
  {
    var lowerText := ToLower(text);
    if Contains(lowerText, "happy") || Contains(lowerText, "smile") || Contains(lowerText, "joy") then Happy
    else if Contains(lowerText, "curious") || Contains(lowerText, "interested") then Confused
    else if Contains(lowerText, "surprised") || Contains(lowerText, "surprise") then Surprised
    else if Contains(lowerText, "sleepy") || Contains(lowerText, "tired") then Neutral
    else if Contains(lowerText, "playful") || Contains(lowerText, "wink") then Excited
    else if Contains(lowerText, "focused") || Contains(lowerText, "attentive") then Neutral
    else if Contains(lowerText, "sad") || Contains(lowerText, "frown") then Sad
    else settings.defaultExpression
  }

  /** The classification as a table: keyword groups in priority order. */
  datatype KeywordGroup = KeywordGroup(keywords: seq<string>, result: ExpressionType)

  const KeywordTable: seq<KeywordGroup> := [
    KeywordGroup(["happy", "smile", "joy"], Happy),
    KeywordGroup(["curious", "interested"], Confused),
    KeywordGroup(["surprised", "surprise"], Surprised),
    KeywordGroup(["sleepy", "tired"], Neutral),
    KeywordGroup(["playful", "wink"], Excited),
    KeywordGroup(["focused", "attentive"], Neutral),
    KeywordGroup(["sad", "frown"], Sad)
  ]

  predicate GroupMatches(g: KeywordGroup, lowerText: string)
  {
    exists k :: 0 <= k < |g.keywords| && Contains(lowerText, g.keywords[k])
  }

  lemma GroupOfTwo(g: KeywordGroup, t: string)
    requires |g.keywords| == 2
    ensures GroupMatches(g, t) <==> Contains(t, g.keywords[0]) || Contains(t, g.keywords[1])
  {
    if Contains(t, g.keywords[0]) { assert Contains(t, g.keywords[0]); }
    if Contains(t, g.keywords[1]) { assert Contains(t, g.keywords[1]); }
  }

  lemma GroupOfThree(g: KeywordGroup, t: string)
    requires |g.keywords| == 3
    ensures GroupMatches(g, t) <==> Contains(t, g.keywords[0]) || Contains(t, g.keywords[1]) || Contains(t, g.keywords[2])
  {
    if Contains(t, g.keywords[0]) { assert Contains(t, g.keywords[0]); }
    if Contains(t, g.keywords[1]) { assert Contains(t, g.keywords[1]); }
    if Contains(t, g.keywords[2]) { assert Contains(t, g.keywords[2]); }
  }

  /** The reference classifier: the result of the first group with a keyword
      in the text, or the default. */
  function ClassifyByTable(table: seq<KeywordGroup>, lowerText: string, default: ExpressionType): ExpressionType
    decreases |table|
  {
    if table == [] then default
    else if GroupMatches(table[0], lowerText) then table[0].result
    else ClassifyByTable(table[1..], lowerText, default)
  }

  /** The chain of tests is exactly first-match over the table. */
  lemma ExpressionFromTextIsFirstMatch(settings: ParserSettings, text: string)
    ensures ExpressionFromText(settings, text) == ClassifyByTable(KeywordTable, ToLower(text), settings.defaultExpression)
  {
    var t := ToLower(text);
    var tbl := KeywordTable;
    assert GroupMatches(tbl[0], t) <==> Contains(t, "happy") || Contains(t, "smile") || Contains(t, "joy") by {
      assert tbl[0].keywords == ["happy", "smile", "joy"];
      GroupOfThree(tbl[0], t);
    }
    assert GroupMatches(tbl[1], t) <==> Contains(t, "curious") || Contains(t, "interested") by {
      assert tbl[1].keywords == ["curious", "interested"];
      GroupOfTwo(tbl[1], t);
    }
    assert GroupMatches(tbl[2], t) <==> Contains(t, "surprised") || Contains(t, "surprise") by {
      assert tbl[2].keywords == ["surprised", "surprise"];
      GroupOfTwo(tbl[2], t);
    }
    assert GroupMatches(tbl[3], t) <==> Contains(t, "sleepy") || Contains(t, "tired") by {
      assert tbl[3].keywords == ["sleepy", "tired"];
      GroupOfTwo(tbl[3], t);
    }
    assert GroupMatches(tbl[4], t) <==> Contains(t, "playful") || Contains(t, "wink") by {
      assert tbl[4].keywords == ["playful", "wink"];
      GroupOfTwo(tbl[4], t);
    }
    assert GroupMatches(tbl[5], t) <==> Contains(t, "focused") || Contains(t, "attentive") by {
      assert tbl[5].keywords == ["focused", "attentive"];
      GroupOfTwo(tbl[5], t);
    }
    assert GroupMatches(tbl[6], t) <==> Contains(t, "sad") || Contains(t, "frown") by {
      assert tbl[6].keywords == ["sad", "frown"];
      GroupOfTwo(tbl[6], t);
    }
    assert tbl[1..][0] == tbl[1] && tbl[1..][1..][0] == tbl[2];
    assert tbl[1..][1..][1..][0] == tbl[3] && tbl[1..][1..][1..][1..][0] == tbl[4];
    assert tbl[1..][1..][1..][1..][1..][0] == tbl[5] && tbl[1..][1..][1..][1..][1..][1..][0] == tbl[6];
    assert tbl[1..][1..][1..][1..][1..][1..][1..] == [];
  }

  /** Classification ignores case. */
  lemma ExpressionFromTextIgnoresCase(settings: ParserSettings, text: string)
    ensures ExpressionFromText(settings, text) == ExpressionFromText(settings, ToLower(text))
  {
    ToLowerIdempotent(text);
  }

  /** An earlier group always beats a later one: a text mentioning both
      "happy" and "sad" is Happy, and "curious" beats "surprise". */
  lemma EarlierGroupWins(settings: ParserSettings, text: string)
    ensures Contains(ToLower(text), "happy") ==> ExpressionFromText(settings, text) == Happy
    ensures (!Contains(ToLower(text), "happy") && !Contains(ToLower(text), "smile") && !Contains(ToLower(text), "joy")
             && Contains(ToLower(text), "curious"))
            ==> ExpressionFromText(settings, text) == Confused
  {
  }

  /** A text with no keyword at all gets the default. */
  lemma NoKeywordGivesDefault(settings: ParserSettings, text: string)
    requires forall g :: g in KeywordTable ==> !GroupMatches(g, ToLower(text))
    ensures ExpressionFromText(settings, text) == settings.defaultExpression
  {
    ExpressionFromTextIsFirstMatch(settings, text);
    NoGroupMatches(KeywordTable, ToLower(text), settings.defaultExpression);
  }

  lemma {:induction false} NoGroupMatches(table: seq<KeywordGroup>, lowerText: string, default: ExpressionType)
    requires forall g :: g in table ==> !GroupMatches(g, lowerText)
    ensures ClassifyByTable(table, lowerText, default) == default
    decreases |table|
  {
    if table != [] {
      assert table[0] in table;
      assert forall g :: g in table[1..] ==> g in table;
      NoGroupMatches(table[1..], lowerText, default);
    }
  }

  /** ParseExpression: the "expression" field, lower-cased and classified, or
      the default when the field is missing. */
  function ParseExpression(settings: ParserSettings, json: string): ExpressionType
  {
    match FirstQuoted(json, "expression", 0)
    case Some(v) => ExpressionFromText(settings, ToLower(v))
    case None => settings.defaultExpression
  }

  /** ParseFloat: a present, parseable number is clamped into [0,1] for the
      key "intensity" and raised to at least 0 for any other key; otherwise
      the default. */
  function ParseFloat(json: string, key: string, defaultValue: real): (r: real)
    ensures key == "intensity" && FirstNumber(json, key, 0).Some? && ParseDecimal(FirstNumber(json, key, 0).value).Some?
      ==> InUnit(r) && (InUnit(ParseDecimal(FirstNumber(json, key, 0).value).value)
                        ==> r == ParseDecimal(FirstNumber(json, key, 0).value).value)
    ensures key != "intensity" && FirstNumber(json, key, 0).Some? && ParseDecimal(FirstNumber(json, key, 0).value).Some?
      ==> r == ParseDecimal(FirstNumber(json, key, 0).value).value && r >= 0.0
    ensures (FirstNumber(json, key, 0).None? || ParseDecimal(FirstNumber(json, key, 0).value).None?) ==> r == defaultValue
  {
    match FirstNumber(json, key, 0)
    case None => defaultValue
    case Some(text) =>
      match ParseDecimal(text)
      case None => defaultValue
      case Some(value) => if key == "intensity" then Clamp01(value) else Max(0.0, value)
  }

  /** ParseString: the captured text, or the default. */
  function ParseString(json: string, key: string, defaultValue: string): (r: string)
    ensures FirstQuoted(json, key, 0).None? ==> r == defaultValue
    ensures FirstQuoted(json, key, 0).Some? ==> |r| > 0 && forall k :: 0 <= k < |r| ==> r[k] != '"'
  {
    match FirstQuoted(json, key, 0)
    case Some(v) => v
    case None => defaultValue
  }

  /** ParseString returns the group of the leftmost match. */
  lemma ParseStringTakesLeftmost(json: string, key: string, defaultValue: string, i: nat, v: string)
    requires QuotedAt(json, key, i) == Some(v)
    requires forall j :: 0 <= j < i ==> QuotedAt(json, key, j).None?
    ensures ParseString(json, key, defaultValue) == v
  {
    FirstQuotedIsLeftmost(json, key, 0, i, v);
  }

  /** A reply that starts with `"key": "v"` yields v. */
  lemma ParseStringReadsField(key: string, v: string, rest: string, defaultValue: string)
    requires |v| > 0 && forall k :: 0 <= k < |v| ==> v[k] != '"'
    ensures ParseString("\"" + key + "\": \"" + v + "\"" + rest, key, defaultValue) == v
  {
    QuotedFieldIsCaptured(key, v, rest);
    FirstQuotedIsLeftmost("\"" + key + "\": \"" + v + "\"" + rest, key, 0, 0, v);
  }

  /** ParseFloat parses the group of the leftmost match, clamping an intensity
      into [0,1] and raising anything else to at least 0. */
  lemma ParseFloatTakesLeftmost(json: string, key: string, defaultValue: real, i: nat, t: string)
    requires NumberAt(json, key, i) == Some(t)
    requires forall j :: 0 <= j < i ==> NumberAt(json, key, j).None?
    ensures ParseDecimal(t).None? ==> ParseFloat(json, key, defaultValue) == defaultValue
    ensures ParseDecimal(t).Some? ==>
      ParseFloat(json, key, defaultValue)
      == (if key == "intensity" then Clamp01(ParseDecimal(t).value) else Max(0.0, ParseDecimal(t).value))
  {
    FirstNumberIsLeftmost(json, key, 0, i, t);
  }

  /** ParseResponse. A null reply (None) makes ExtractJson throw; the handler
      then sets the three defaults and leaves the reasoning empty. */
  function ParseResponse(settings: ParserSettings, reply: Option<string>): ExpressionResponse
  {
    match reply
    case None =>
      FreshResponse.(expression := settings.defaultExpression,
                     intensity := settings.defaultIntensity,
                     duration := settings.defaultDuration)
    case Some(text) =>
      var json := ExtractJson(text);
      if json != "" then
        ExpressionResponse(ParseExpression(settings, json),
                           ParseFloat(json, "intensity", settings.defaultIntensity),
                           ParseFloat(json, "duration", settings.defaultDuration),
                           ParseString(json, "reasoning", ""))
      else
        ExpressionResponse(ExpressionFromText(settings, text), settings.defaultIntensity, settings.defaultDuration, text)
  }

  /** Intensity always ends in [0,1] and duration at or above 0, as long as the
      configured defaults do. */
  lemma ParsedValuesInRange(settings: ParserSettings, reply: Option<string>)
    requires InUnit(settings.defaultIntensity) && settings.defaultDuration >= 0.0
    ensures InUnit(ParseResponse(settings, reply).intensity)
    ensures ParseResponse(settings, reply).duration >= 0.0
  {
  }

  /** Without a JSON span the reply is classified as free text, the numbers
      take their defaults and the reasoning is the whole reply. */
  lemma FreeTextFallback(settings: ParserSettings, text: string)
    requires ExtractJson(text) == ""
    ensures ParseResponse(settings, Some(text))
         == ExpressionResponse(ExpressionFromText(settings, text), settings.defaultIntensity, settings.defaultDuration, text)
  {
  }

  /** A null reply yields the three defaults and an empty reasoning. */
  lemma NullReplyGivesDefaults(settings: ParserSettings)
    ensures ParseResponse(settings, None)
         == ExpressionResponse(settings.defaultExpression, settings.defaultIntensity, settings.defaultDuration, "")
  {
  }

  /** The captured number never has a sign, so the lower bound applied to
      duration never changes a parsed value. */
  lemma ParsedNumbersAreNonNegative(json: string, key: string)
    requires FirstNumber(json, key, 0).Some? && ParseDecimal(FirstNumber(json, key, 0).value).Some?
    ensures ParseDecimal(FirstNumber(json, key, 0).value).value >= 0.0
    ensures Max(0.0, ParseDecimal(FirstNumber(json, key, 0).value).value) == ParseDecimal(FirstNumber(json, key, 0).value).value
  {
  }
}
