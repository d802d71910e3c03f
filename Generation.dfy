/** Directive generation on the server (server/server.js, `generateDirective`
    and `fallbackDirective`): ask the language model for a directive, validate
    its reply against the schema, retry once with a corrective note and a lower
    temperature, and settle for a constant fallback directive after that.

    The model call (`requestOllama`) is a parameter `llm`: it answers a request
    with the reply text, or fails the way a rejected or unreachable request
    throws. `JSON.parse` is a parameter `parse` that yields None where it throws. */
module Generation {
  import opened Wrappers
  import opened Json
  import opened DirectiveSchema
  import opened JsonText

  datatype Role = System | User | Assistant

  /** One chat message `{ role, content }`. */
  datatype Message = Message(role: Role, content: string)

  /** What one model call is given: the note appended to the system prompt,
      the stored history, the user's text and the sampling temperature. The
      chat messages actually sent are `Messages(req)`. */
  datatype Request = Request(systemNote: string, history: seq<Message>, userText: string, temperature: real)

  /** What one model call yields: the reply text (`""` when the reply carries
      none), or the error the call throws. */
  datatype Reply = Reply(text: string) | RequestFailed(error: string)

  /** The outcome of `generateDirective` together with every model request it
      made, in order. A `Failure` is the error it lets escape. */
  datatype Generation = Generation(result: Result<Directive, string>, requests: seq<Request>)

  const SystemPrompt: string := @"You are N:OVA, a friendly virtual avatar.
Respond ONLY with a single JSON object that matches the AvatarDirective schema.
Do not include markdown, code fences, or any extra text.

AvatarDirective schema:
{
  spokenText: string,
  emotion: ""neutral""|""happy""|""sad""|""angry""|""shy""|""excited""|""tired""|""surprised"",
  intensity: number (0.0-1.0),
  gesture: { motion: string|null, priority: ""idle""|""normal""|""force"" },
  expression: string|null,
  microTimeline: [
    { t: number, params: [ { id: string, value: number, fade: number } ] }
  ],
  tts: { voice: string|null, speed: number|null, pitch: number|null }
}
"

  const RetryInstruction: string := "JSON only. Ensure every field exists and types are correct."

  const FallbackText: string := "미안, 응답을 생성하는 데 문제가 있었어. 다시 한 번 말해줄래?"

  /** The note appended to the system prompt: none on the first attempt, the
      corrective instruction on a retry. */
  function RetryNote(attempt: nat): (r: string)
    ensures r == "" <==> attempt == 0
  {
    if attempt == 0 then "" else RetryInstruction
  }

  /** Sampling temperature: 0.7 on the first attempt, 0.2 on a retry. */
  function Temperature(attempt: nat): (r: real)
    ensures 0.0 < r < 1.0
    ensures attempt != 0 ==> r < Temperature(0)
  {
    if attempt == 0 then 0.7 else 0.2
  }

  /** The messages a request sends: the system prompt with its note, the
      stored history in order, and the user's text last. */
  function Messages(req: Request): (r: seq<Message>)
    ensures |r| == |req.history| + 2
    ensures r[0].role == System && r[0].content == SystemPrompt + "\n" + req.systemNote
    ensures r[1..|r| - 1] == req.history
    ensures r[|r| - 1] == Message(User, req.userText)
  {
    [Message(System, SystemPrompt + "\n" + req.systemNote)] + req.history + [Message(User, req.userText)]
  }

  /** The request of one attempt: the retry note and temperature of that
      attempt. */
  function RequestFor(history: seq<Message>, userText: string, attempt: nat): (req: Request)
    ensures req.history == history && req.userText == userText
    ensures req.systemNote == "" <==> attempt == 0
    ensures attempt == 0 ==> req.temperature == 0.7
    ensures attempt != 0 ==> req.systemNote == RetryInstruction && req.temperature == 0.2
  {
    Request(RetryNote(attempt), history, userText, Temperature(attempt))
  }

  /** `fallbackDirective(message)`: the same apology for every argument, neutral
      and calm, with no gesture, no expression, an empty timeline and no speech
      hints. It satisfies the schema, so a client re-validating it accepts it. */
  function FallbackDirective(message: string): (r: Directive)
    ensures ValidDirective(r)
    ensures ParseDirective(EncodeDirective(r)) == Some(r)
    ensures r.microTimeline == [] && r.spokenText == FallbackText
    ensures r.emotion == Neutral && r.intensity == 0.2
    ensures r.gesture == Gesture(None, Idle) && r.expression == None
    ensures r.tts == TtsHints(None, None, None)
  {
    var d := Directive(FallbackText, Neutral, 0.2, Gesture(None, Idle), None, [],
                       TtsHints(None, None, None));
    RoundTrip(d);
    d
  }

  /** `JSON.parse(extractJson(raw) ?? raw)` followed by `safeParse`: the
      validated directive, or None where either step fails. A directive it
      yields satisfies the schema's constraints, and text that does not parse
      yields none. */
  function Validate(parse: string -> Option<Json>, raw: string): (r: Option<Directive>)
    ensures r.Some? ==> ValidDirective(r.value)
    ensures parse(JsonCandidate(raw)).None? ==> r.None?
    ensures parse(JsonCandidate(raw)).Some? ==> r == ParseDirective(parse(JsonCandidate(raw)).value)
  {
    match parse(JsonCandidate(raw))
    case None => None
    case Some(j) =>
      var d := ParseDirective(j);
      if d.Some? then ParseSound(j); d else d
  }

  /** A reply whose candidate parses to the JSON of a valid directive is
      accepted as that directive. */
  lemma ValidReplyAccepted(parse: string -> Option<Json>, raw: string, d: Directive)
    requires ValidDirective(d) && parse(JsonCandidate(raw)) == Some(EncodeDirective(d))
    ensures Validate(parse, raw) == Some(d)
  {
    RoundTrip(d);
  }

  /** `generateDirective(userText, sessionId, attempt)` with the session's
      stored history already looked up. */
  function Generate(userText: string, history: seq<Message>, llm: Request -> Reply,
                    parse: string -> Option<Json>, attempt: nat): (g: Generation)
    decreases if attempt == 0 then 1 else 0
    // one request, or two when the first attempt's reply is rejected
    ensures 1 <= |g.requests| <= (if attempt == 0 then 2 else 1)
    ensures g.requests[0] == RequestFor(history, userText, attempt)
    ensures |g.requests| == 2 ==>
      && g.requests[1] == RequestFor(history, userText, 1)
      && llm(g.requests[0]).Reply?
      && Validate(parse, llm(g.requests[0]).text).None?
    // the last request decides: its error escapes, its directive is taken,
    // and a rejected reply on a retry yields the fallback
    ensures var last := llm(g.requests[|g.requests| - 1]);
      match last
      case RequestFailed(e) => g.result == Failure(e)
      case Reply(raw) =>
        g.result == Success(Validate(parse, raw).GetOr(FallbackDirective(userText)))
    // a first attempt stops after one request only when that request failed
    // or its reply was accepted
    ensures attempt == 0 && |g.requests| == 1 ==>
      var first := llm(g.requests[0]);
      first.RequestFailed? || Validate(parse, first.text).Some?
  {
    var req := RequestFor(history, userText, attempt);
    match llm(req)
    case RequestFailed(e) => Generation(Failure(e), [req])
    case Reply(raw) =>
      var v := Validate(parse, raw);
      if v.Some? then Generation(Success(v.value), [req])
      else if attempt == 0 then
        var retry := Generate(userText, history, llm, parse, 1);
        Generation(retry.result, [req] + retry.requests)
      else Generation(Success(FallbackDirective(userText)), [req])
  }

  /** Whatever `generateDirective` returns satisfies the schema: either the
      schema accepted it, or it is the fallback. */
  lemma GenerateSound(userText: string, history: seq<Message>, llm: Request -> Reply,
                      parse: string -> Option<Json>, attempt: nat)
    ensures var g := Generate(userText, history, llm, parse, attempt);
      g.result.Success? ==> ValidDirective(g.result.value)
  {
  }

  /** A first reply the schema accepts is taken as it is, with no retry. */
  lemma FirstReplyAccepted(userText: string, history: seq<Message>, llm: Request -> Reply,
                           parse: string -> Option<Json>, d: Directive)
    requires var r := llm(RequestFor(history, userText, 0)); r.Reply? && Validate(parse, r.text) == Some(d)
    ensures Generate(userText, history, llm, parse, 0) == Generation(Success(d), [RequestFor(history, userText, 0)])
  {
  }

  /** Two replies the schema rejects yield the fallback directive, after
      exactly two requests at temperatures 0.7 and 0.2. */
  lemma TwoRejectionsFallBack(userText: string, history: seq<Message>, llm: Request -> Reply,
                              parse: string -> Option<Json>)
    requires var r := llm(RequestFor(history, userText, 0)); r.Reply? && Validate(parse, r.text).None?
    requires var r := llm(RequestFor(history, userText, 1)); r.Reply? && Validate(parse, r.text).None?
    ensures var g := Generate(userText, history, llm, parse, 0);
      && g.result == Success(FallbackDirective(userText))
      && |g.requests| == 2
      && g.requests[0].temperature == 0.7 && g.requests[1].temperature == 0.2
  {
  }
}
