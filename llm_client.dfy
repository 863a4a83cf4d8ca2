/** LLMClient: the request gate (one request at a time, a cooldown between
    requests), the provider-specific request body with the prompt escaped for a
    JSON string, and the substring-based extraction of the reply text. The
    web request itself is an outcome handed to CompleteRequest. */
module LLMRequests {
  import opened Options
  import opened Text

  datatype Provider = OpenAI | Anthropic | Custom

  /** The serialized settings. */
  datatype ClientConfig = ClientConfig(
    apiKey: string,
    apiEndpoint: string,
    model: string,
    requestCooldown: real,
    provider: Provider)

  const DefaultClientConfig := ClientConfig("", "https://api.openai.com/v1/chat/completions", "gpt-4", 1.0, OpenAI)

  // ---------------------------------------------------------------------------
  // EscapeJson.

  /** String.Replace with a one-character pattern: every occurrence of c,
      left to right, becomes rep. */
  function ReplaceChar(s: string, c: char, rep: string): string
    decreases |s|
  {
    if s == [] then [] else (if s[0] == c then rep else [s[0]]) + ReplaceChar(s[1..], c, rep)
  }

  lemma {:induction false} ReplaceCharAppend(a: string, b: string, c: char, rep: string)
    ensures ReplaceChar(a + b, c, rep) == ReplaceChar(a, c, rep) + ReplaceChar(b, c, rep)
    decreases |a|
  {
    if a == [] {
      assert a + b == b;
    } else {
      assert (a + b)[0] == a[0] && (a + b)[1..] == a[1..] + b;
      ReplaceCharAppend(a[1..], b, c, rep);
    }
  }

  /** EscapeJson: backslashes doubled first, then quotes and newlines escaped. */
  function EscapeJson(input: string): string
  {
    ReplaceChar(ReplaceChar(ReplaceChar(input, '\\', "\\\\"), '"', "\\\""), '\n', "\\n")
  }

  /** The reference escaping: each character on its own. */
  function EscapeChar(c: char): string
  {
    if c == '\\' then "\\\\" else if c == '"' then "\\\"" else if c == '\n' then "\\n" else [c]
  }

  function EscapeEach(s: string): string
    decreases |s|
  {
    if s == [] then [] else EscapeChar(s[0]) + EscapeEach(s[1..])
  }

  /** Because backslashes are replaced first, the backslashes the later passes
      introduce are never doubled: the three passes escape each character
      exactly once. */
  lemma {:induction false} EscapeJsonEscapesEachCharOnce(s: string)
    ensures EscapeJson(s) == EscapeEach(s)
    decreases |s|
  {
    if s != [] {
      var rest1 := ReplaceChar(s[1..], '\\', "\\\\");
      var head1 := if s[0] == '\\' then "\\\\" else [s[0]];
      assert ReplaceChar(s, '\\', "\\\\") == head1 + rest1;
      ReplaceCharAppend(head1, rest1, '"', "\\\"");
      var head2 := ReplaceChar(head1, '"', "\\\"");
      var rest2 := ReplaceChar(rest1, '"', "\\\"");
      ReplaceCharAppend(head2, rest2, '\n', "\\n");
      var head3 := ReplaceChar(head2, '\n', "\\n");
      if s[0] == '\\' {
        assert head1 == ['\\'] + ['\\'];
        ReplaceCharAppend(['\\'], ['\\'], '"', "\\\"");
        assert head2 == head1;
        ReplaceCharAppend(['\\'], ['\\'], '\n', "\\n");
      } else if s[0] == '"' {
        assert head2 == ['\\'] + ['"'];
        ReplaceCharAppend(['\\'], ['"'], '\n', "\\n");
      }
      assert head3 == EscapeChar(s[0]);
      EscapeJsonEscapesEachCharOnce(s[1..]);
    }
  }

  /** No raw newline survives escaping. */
  lemma {:induction false} EscapeEachHasNoNewline(s: string)
    ensures forall i :: 0 <= i < |EscapeEach(s)| ==> EscapeEach(s)[i] != '\n'
    decreases |s|
  {
    if s != [] {
      EscapeEachHasNoNewline(s[1..]);
    }
  }

  /** Escaping adds exactly one character per backslash, quote and newline. */
  lemma {:induction false} EscapeEachLength(s: string)
    ensures |EscapeEach(s)| == |s| + CountChar(s, '\\') + CountChar(s, '"') + CountChar(s, '\n')
    decreases |s|
  {
    if s != [] {
      EscapeEachLength(s[1..]);
    }
  }

  /** A carriage return is not one of the three escaped characters: every
      '\r' of the input reaches the request body raw. */
  lemma {:induction false} EscapeJsonKeepsCarriageReturns(s: string)
    ensures CountChar(EscapeJson(s), '\r') == CountChar(s, '\r')
  {
    EscapeJsonEscapesEachCharOnce(s);
    EscapeEachKeepsCarriageReturns(s);
  }

  lemma {:induction false} EscapeEachKeepsCarriageReturns(s: string)
    ensures CountChar(EscapeEach(s), '\r') == CountChar(s, '\r')
    decreases |s|
  {
    if s != [] {
      EscapeEachKeepsCarriageReturns(s[1..]);
      CountCharAppend(EscapeChar(s[0]), EscapeEach(s[1..]), '\r');
      var h := EscapeChar(s[0]);
      assert CountChar(h, '\r') == (if s[0] == '\r' then 1 else 0) by {
        if |h| == 2 {
          assert h[1..][1..] == [];
        } else {
          assert h[1..] == [];
        }
      }
    }
  }

  lemma {:induction false} CountCharAppend(a: string, b: string, c: char)
    ensures CountChar(a + b, c) == CountChar(a, c) + CountChar(b, c)
    decreases |a|
  {
    if a == [] {
      assert a + b == b;
    } else {
      assert (a + b)[0] == a[0] && (a + b)[1..] == a[1..] + b;
      CountCharAppend(a[1..], b, c);
    }
  }

  /** Reading a JSON string body back: a backslash escapes the next character,
      with "\n" standing for a newline. */
  function Unescape(t: string): string
    decreases |t|
  {
    if t == [] then []
    else if t[0] == '\\' && |t| >= 2 then [if t[1] == 'n' then '\n' else t[1]] + Unescape(t[2..])
    else [t[0]] + Unescape(t[1..])
  }

  lemma {:induction false} UnescapeEscapeEach(s: string)
    ensures Unescape(EscapeEach(s)) == s
    decreases |s|
  {
    if s != [] {
      var rest := EscapeEach(s[1..]);
      var e := EscapeChar(s[0]) + rest;
      assert EscapeEach(s) == e;
      if s[0] == '\\' || s[0] == '"' || s[0] == '\n' {
        assert e[0] == '\\' && e[2..] == rest;
      } else {
        assert e[0] == s[0] && e[1..] == rest;
      }
      UnescapeEscapeEach(s[1..]);
    }
  }

  /** The escaped prompt decodes back to the prompt, carries no raw newline,
      and is longer by the number of escaped characters. */
  lemma EscapeJsonProperties(s: string)
    ensures Unescape(EscapeJson(s)) == s
    ensures forall i :: 0 <= i < |EscapeJson(s)| ==> EscapeJson(s)[i] != '\n'
    ensures |EscapeJson(s)| == |s| + CountChar(s, '\\') + CountChar(s, '"') + CountChar(s, '\n')
  {
    EscapeJsonEscapesEachCharOnce(s);
    UnescapeEscapeEach(s);
    EscapeEachHasNoNewline(s);
    EscapeEachLength(s);
  }

  // ---------------------------------------------------------------------------
  // BuildRequestBody.

  function Spaces(n: nat): string
  {
    seq(n, _ => ' ')
  }

  const SystemMessage := "You are a helpful assistant that helps determine cat facial expressions based on human emotions and interactions."

  /** The key that opens the user message's content, up to its opening quote. */
  const ContentKeyOpen := "\"content\": \""

  predicate EndsWith(s: string, suffix: string)
  {
    |suffix| <= |s| && s[|s| - |suffix|..] == suffix
  }

  predicate StartsWith(s: string, prefix: string)
  {
    |prefix| <= |s| && s[..|prefix|] == prefix
  }

  lemma AppendEndsWith(head: string, suffix: string)
    ensures EndsWith(head + suffix, suffix)
  {
    assert (head + suffix)[|head|..] == suffix;
  }

  lemma AppendStartsWith(prefix: string, tail: string)
    ensures StartsWith(prefix + tail, prefix)
  {
    assert (prefix + tail)[..|prefix|] == prefix;
  }

  /** The body up to the user message's key. */
  function BodyHead(cfg: ClientConfig): string
  {
    match cfg.provider
    case OpenAI =>
      "{\n" + Spaces(20) + "\"model\": \"" + cfg.model + "\",\n"
      + Spaces(20) + "\"messages\": [\n"
      + Spaces(24) + "{\"role\": \"system\", \"content\": \"" + SystemMessage + "\"},\n"
      + Spaces(24) + "{\"role\": \"user\", "
    case Anthropic =>
      "{\n" + Spaces(20) + "\"model\": \"" + cfg.model + "\",\n"
      + Spaces(20) + "\"max_tokens\": 150,\n"
      + Spaces(20) + "\"messages\": [\n"
      + Spaces(24) + "{\"role\": \"user\", "
    case Custom => ""
  }

  /** The body up to the opening quote of the user message's content. */
  function BodyPrefix(cfg: ClientConfig): string
  {
    BodyHead(cfg) + ContentKeyOpen
  }

  /** The closing quote and brace of the user message. */
  const MessageClose := "\"}"

  /** The body from the closing quote of the user message's content on. */
  function BodySuffix(cfg: ClientConfig): string
  {
    match cfg.provider
    case OpenAI =>
      MessageClose + "\n" + Spaces(20) + "],\n"
      + Spaces(20) + "\"temperature\": 0.7,\n"
      + Spaces(20) + "\"max_tokens\": 150\n"
      + Spaces(16) + "}"
    case Anthropic =>
      MessageClose + "\n" + Spaces(20) + "]\n" + Spaces(16) + "}"
    case Custom => ""
  }

  /** BuildRequestBody: the provider's template around the escaped prompt;
      the empty string for a custom provider. */
  function BuildRequestBody(cfg: ClientConfig, prompt: string): (r: string)
    ensures cfg.provider == Custom <==> r == ""
  {
    if cfg.provider == Custom then ""
    else BodyPrefix(cfg) + EscapeJson(prompt) + BodySuffix(cfg)
  }

  /** The prompt sits, escaped, between a prefix ending in the content key's
      opening quote and a suffix starting with its closing quote, and it can be
      read back; so different prompts give different bodies. */
  lemma RequestBodyCarriesPrompt(cfg: ClientConfig, prompt: string, other: string)
    requires cfg.provider != Custom
    ensures EndsWith(BodyPrefix(cfg), ContentKeyOpen)
    ensures StartsWith(BodySuffix(cfg), MessageClose)
    ensures var body := BuildRequestBody(cfg, prompt);
      Unescape(body[|BodyPrefix(cfg)|..|body| - |BodySuffix(cfg)|]) == prompt
    ensures BuildRequestBody(cfg, prompt) == BuildRequestBody(cfg, other) ==> prompt == other
  {
    AppendEndsWith(BodyHead(cfg), ContentKeyOpen);
    AppendStartsWith(MessageClose, BodySuffix(cfg)[|MessageClose|..]);
    assert BodySuffix(cfg) == MessageClose + BodySuffix(cfg)[|MessageClose|..];
    var body := BuildRequestBody(cfg, prompt);
    assert body[|BodyPrefix(cfg)|..|body| - |BodySuffix(cfg)|] == EscapeJson(prompt);
    EscapeJsonProperties(prompt);
    EscapeJsonProperties(other);
    var body2 := BuildRequestBody(cfg, other);
    assert body2[|BodyPrefix(cfg)|..|body2| - |BodySuffix(cfg)|] == EscapeJson(other);
  }

  // ---------------------------------------------------------------------------
  // ParseResponse.

  /** The characters from `start` up to the next '"'. The whole input comes
      back when that quote is missing or sits right at `start`, and when
      `start` lies past the end (IndexOf throws and the handler returns the
      input). */
  function TextFrom(json: string, start: nat): string
  {
    if start > |json| then json
    else
      var endIndex := IndexOfCharFrom(json, '"', start);
      if endIndex > start then json[start..endIndex] else json
  }

  /** LLMClient.ParseResponse. */
  function ParseResponse(json: string): string
  {
    if Contains(json, "\"content\"") then TextFrom(json, IndexOf(json, "\"content\"") + 11)
    else if Contains(json, "\"text\"") then TextFrom(json, IndexOf(json, "\"text\"") + 8)
    else json
  }

  /** TextFrom either finds the quote-free run ending at the first quote after
      `start`, or gives the input back. */
  lemma TextFromRule(json: string, start: nat)
    ensures forall e :: (start < e < |json| && json[e] == '"' && (forall k :: start <= k < e ==> json[k] != '"'))
                          ==> TextFrom(json, start) == json[start..e]
    ensures (start > |json| || (start < |json| && json[start] == '"') || (forall k :: start <= k < |json| ==> json[k] != '"'))
      ==> TextFrom(json, start) == json
  {
  }

  /** With "content" present, the reply is the text from 11 characters after
      its first occurrence up to the next quote, or the whole input. */
  lemma ParseResponseContentRule(json: string)
    requires Contains(json, "\"content\"")
    ensures var start := IndexOf(json, "\"content\"") + 11;
      forall e :: (start < e < |json| && json[e] == '"' && (forall k :: start <= k < e ==> json[k] != '"'))
                    ==> ParseResponse(json) == json[start..e]
    ensures var start := IndexOf(json, "\"content\"") + 11;
      (start > |json| || (start < |json| && json[start] == '"') || (forall k :: start <= k < |json| ==> json[k] != '"'))
        ==> ParseResponse(json) == json
  {
    TextFromRule(json, IndexOf(json, "\"content\"") + 11);
  }

  /** Only without "content" does "text" count, with an offset of 8. */
  lemma ParseResponseTextRule(json: string)
    requires !Contains(json, "\"content\"") && Contains(json, "\"text\"")
    ensures var start := IndexOf(json, "\"text\"") + 8;
      forall e :: (start < e < |json| && json[e] == '"' && (forall k :: start <= k < e ==> json[k] != '"'))
                    ==> ParseResponse(json) == json[start..e]
    ensures var start := IndexOf(json, "\"text\"") + 8;
      (start > |json| || (start < |json| && json[start] == '"') || (forall k :: start <= k < |json| ==> json[k] != '"'))
        ==> ParseResponse(json) == json
  {
    TextFromRule(json, IndexOf(json, "\"text\"") + 8);
  }

  /** Neither key: the input unchanged. */
  lemma ParseResponseNoKey(json: string)
    requires !Contains(json, "\"content\"") && !Contains(json, "\"text\"")
    ensures ParseResponse(json) == json
  {
  }

  /** Whatever happens, the result is a piece of the input; a proper piece
      never contains a quote. */
  lemma ParseResponseIsSubstring(json: string)
    ensures exists i :: OccursAt(json, ParseResponse(json), i)
    ensures ParseResponse(json) != json ==> forall k :: 0 <= k < |ParseResponse(json)| ==> ParseResponse(json)[k] != '"'
  {
    var r := ParseResponse(json);
    if r == json {
      assert OccursAt(json, r, 0);
    } else {
      var start := if Contains(json, "\"content\"") then IndexOf(json, "\"content\"") + 11 else IndexOf(json, "\"text\"") + 8;
      assert r == json[start..IndexOfCharFrom(json, '"', start)];
      assert OccursAt(json, r, start);
    }
  }

  // ---------------------------------------------------------------------------
  // The request gate.

  /** The web request's outcome, supplied when the coroutine resumes. */
  datatype Outcome = Success(text: string) | Failure(error: string)

  /** OnResponseReceived (and the completion callback, which gets the same
      text) and OnError, plus the request that was sent. */
  datatype ClientEvent = RequestSent(body: string, time: real) | ResponseReceived(text: string) | ErrorRaised(message: string)

  datatype GateState = GateState(lastRequestTime: real, inProgress: bool)

  const InitialGate := GateState(0.0, false)

  /** SendRequest's two refusals: a request in flight, or the cooldown since
      the last request not yet over. */
  predicate MayStart(cfg: ClientConfig, s: GateState, now: real)
  {
    !s.inProgress && !(now - s.lastRequestTime < cfg.requestCooldown)
  }

  datatype GateStep = GateStep(next: GateState, emitted: seq<ClientEvent>)

  /** SendRequest followed by the coroutine's first part, up to the yield. */
  function SendStep(cfg: ClientConfig, s: GateState, prompt: string, now: real): GateStep
  {
    if MayStart(cfg, s, now) then GateStep(GateState(now, true), [RequestSent(BuildRequestBody(cfg, prompt), now)])
    else GateStep(s, [])
  }

  /** The coroutine's second part, after the web request finished. */
  function CompleteStep(s: GateState, outcome: Outcome): GateStep
  {
    match outcome
    case Success(text) => GateStep(s.(inProgress := false), [ResponseReceived(ParseResponse(text))])
    case Failure(error) => GateStep(s.(inProgress := false), [ErrorRaised("LLM API Error: " + error)])
  }

  /** The protocol: a request is sent only when none is in flight and at least
      the cooldown after the previous send (or after time 0); each request is
      answered by exactly one response or error. */
  function Replay(cooldown: real, trace: seq<ClientEvent>, s: GateState): Option<GateState>
    decreases |trace|
  {
    if trace == [] then Some(s)
    else match trace[0]
      case RequestSent(_, t) =>
        if !s.inProgress && t - s.lastRequestTime >= cooldown then Replay(cooldown, trace[1..], GateState(t, true)) else None
      case _ =>
        if s.inProgress then Replay(cooldown, trace[1..], s.(inProgress := false)) else None
  }

  lemma {:induction false} ReplayAppend(cooldown: real, a: seq<ClientEvent>, b: seq<ClientEvent>, s: GateState, mid: GateState)
    requires Replay(cooldown, a, s) == Some(mid)
    ensures Replay(cooldown, a + b, s) == Replay(cooldown, b, mid)
    decreases |a|
  {
    if a != [] {
      assert (a + b)[0] == a[0] && (a + b)[1..] == a[1..] + b;
      match a[0]
      case RequestSent(_, t) =>
        assert Replay(cooldown, a[1..], GateState(t, true)) == Some(mid);
        ReplayAppend(cooldown, a[1..], b, GateState(t, true), mid);
      case ResponseReceived(_) =>
        assert Replay(cooldown, a[1..], s.(inProgress := false)) == Some(mid);
        ReplayAppend(cooldown, a[1..], b, s.(inProgress := false), mid);
      case ErrorRaised(_) =>
        assert Replay(cooldown, a[1..], s.(inProgress := false)) == Some(mid);
        ReplayAppend(cooldown, a[1..], b, s.(inProgress := false), mid);
    } else {
      assert a + b == b;
    }
  }

  /** Every send keeps the protocol, and so does every completion of the
      request in flight. */
  lemma GateFollowsProtocol(cfg: ClientConfig, s: GateState, prompt: string, now: real, outcome: Outcome)
    ensures Replay(cfg.requestCooldown, SendStep(cfg, s, prompt, now).emitted, s) == Some(SendStep(cfg, s, prompt, now).next)
    ensures s.inProgress ==> Replay(cfg.requestCooldown, CompleteStep(s, outcome).emitted, s) == Some(CompleteStep(s, outcome).next)
  {
    var st := SendStep(cfg, s, prompt, now);
    if MayStart(cfg, s, now) {
      assert st.emitted[1..] == [];
    }
    if s.inProgress {
      var ct := CompleteStep(s, outcome);
      assert ct.emitted[1..] == [];
    }
  }

  /** A refused request changes nothing and sends nothing. */
  lemma RefusedRequestIsSilent(cfg: ClientConfig, s: GateState, prompt: string, now: real)
    requires s.inProgress || now - s.lastRequestTime < cfg.requestCooldown
    ensures SendStep(cfg, s, prompt, now) == GateStep(s, [])
  {
  }

  class LLMClient {
    const config: ClientConfig
    var lastRequestTime: real
    var isRequestInProgress: bool
    /** What the client has sent and raised so far. */
    var log: seq<ClientEvent>

    function Gate(): GateState
      reads this
    {
      GateState(lastRequestTime, isRequestInProgress)
    }

    ghost predicate Valid()
      reads this
    {
      Replay(config.requestCooldown, log, InitialGate) == Some(Gate())
    }

    constructor(cfg: ClientConfig)
      ensures config == cfg && Gate() == InitialGate && log == []
      ensures Valid()
    {
      config := cfg;
      lastRequestTime := 0.0;
      isRequestInProgress := false;
      log := [];
    }

    /** SendRequest: refused while a request is in flight or during the
        cooldown; otherwise the request is marked in flight at time `now` and
        its body sent. */
    method SendRequest(prompt: string, now: real)
      requires Valid()
      modifies this
      ensures Gate() == SendStep(config, old(Gate()), prompt, now).next
      ensures log == old(log) + SendStep(config, old(Gate()), prompt, now).emitted
      ensures Valid()
    {
      ghost var before := Gate();
      if isRequestInProgress {
        GateFollowsProtocol(config, before, prompt, now, Failure(""));
        assert log + [] == log;
        return;
      }
      if now - lastRequestTime < config.requestCooldown {
        assert log + [] == log;
        return;
      }
      isRequestInProgress := true;
      lastRequestTime := now;
      var requestBody := BuildRequestBody(config, prompt);
      GateFollowsProtocol(config, before, prompt, now, Failure(""));
      ReplayAppend(config.requestCooldown, log, [RequestSent(requestBody, now)], InitialGate, before);
      log := log + [RequestSent(requestBody, now)];
    }

    /** The rest of the coroutine once the web request has finished. */
    method CompleteRequest(outcome: Outcome)
      requires Valid() && isRequestInProgress
      modifies this
      ensures Gate() == CompleteStep(old(Gate()), outcome).next
      ensures log == old(log) + CompleteStep(old(Gate()), outcome).emitted
      ensures Valid()
    {
      ghost var before := Gate();
      var event;
      match outcome {
        case Success(text) =>
          var parsedResponse := ParseResponse(text);
          event := ResponseReceived(parsedResponse);
        case Failure(error) =>
          event := ErrorRaised("LLM API Error: " + error);
      }
      GateFollowsProtocol(config, before, "", 0.0, outcome);
      ReplayAppend(config.requestCooldown, log, [event], InitialGate, before);
      log := log + [event];
      isRequestInProgress := false;
    }
  }
}
