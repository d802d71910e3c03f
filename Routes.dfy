/** The decisions of the two POST handlers in server/server.js: `/api/chat`
    (validate the body, pick the session, generate, store the exchange, answer
    with the directive or the fallback) and `/api/tts` (validate the body, relay
    to the speech service, or answer with silent audio).

    The request body is the JSON value Express parsed (None when there is none);
    `crypto.randomUUID()` is the parameter `freshId`; the speech service is the
    parameter `synthesize`, and its configured base URL the parameter `ttsUrl`. */
module Routes {
  import opened Wrappers
  import opened Json
  import opened DirectiveSchema
  import opened Generation
  import opened Sessions
  import opened Bytes
  import opened SilentWav

  datatype ChatResponse =
    | ChatRejected(status: nat, error: string)
    | ChatReply(sessionId: string, directive: Directive, warning: Option<string>)

  /** A body field JavaScript treats as truthy and of type string. */
  function NonEmptyString(v: Option<Json>): (r: Option<string>)
    ensures r.Some? <==> v.Some? && v.value.JStr? && v.value.s != ""
    ensures r.Some? ==> r.value == v.value.s
  {
    match v
    case Some(JStr(s)) => if s != "" then Some(s) else None
    case _ => None
  }

  /** `const { sessionId, userText } = req.body || {}`: a field of the body, or
      undefined when the body is missing or not an object. */
  function BodyField(body: Option<Json>, key: string): (r: Option<Json>)
    ensures r.Some? <==> body.Some? && body.value.JObj? && key in body.value.fields
    ensures r.Some? ==> r.value == body.value.fields[key]
  {
    match body
    case None => None
    case Some(b) => Field(b, key)
  }

  /** The session id used: the body's non-empty string `sessionId`, otherwise a
      fresh one. */
  function ChatSessionId(body: Option<Json>, freshId: string): (r: string)
    ensures NonEmptyString(BodyField(body, "sessionId")).None? ==> r == freshId
    ensures NonEmptyString(BodyField(body, "sessionId")).Some? ==> r != "" && BodyField(body, "sessionId") == Some(JStr(r))
  {
    NonEmptyString(BodyField(body, "sessionId")).GetOr(freshId)
  }

  /** `POST /api/chat`. A missing, empty or non-string `userText` is rejected
      with 400 and no session changes. Otherwise exactly the chosen session's
      history gains the exchange, and the reply carries a directive the schema
      accepts: the generated one, or the fallback with the warning "fallback"
      when generation threw. */
  method HandleChat(store: SessionStore, body: Option<Json>, freshId: string,
                    llm: Request -> Reply, parse: string -> Option<Json>)
    returns (resp: ChatResponse)
    requires store.Valid()
    modifies store
    ensures store.Valid()
    ensures resp.ChatRejected? <==> NonEmptyString(BodyField(body, "userText")).None?
    ensures resp.ChatRejected? ==>
      resp == ChatRejected(400, "userText is required") && store.sessions == old(store.sessions)
    ensures resp.ChatReply? ==>
      var userText := NonEmptyString(BodyField(body, "userText")).value;
      var id := ChatSessionId(body, freshId);
      var g := Generate(userText, old(store.History(id)), llm, parse, 0);
      && resp.sessionId == id
      && (g.result.Success? ==> resp.directive == g.result.value && resp.warning == None)
      && (g.result.Failure? ==> resp.directive == FallbackDirective(userText) && resp.warning == Some("fallback"))
      && ValidDirective(resp.directive)
      // the browser re-validates the directive with the same schema and gets
      // it back unchanged
      && ParseDirective(EncodeDirective(resp.directive)) == Some(resp.directive)
      && store.sessions == old(store.sessions)[id := NextHistory(old(store.History(id)), userText, resp.directive.spokenText)]
  {
    var userText := NonEmptyString(BodyField(body, "userText"));
    if userText.None? {
      return ChatRejected(400, "userText is required");
    }
    var id := ChatSessionId(body, freshId);
    var g := Generate(userText.value, store.History(id), llm, parse, 0);
    GenerateSound(userText.value, store.History(id), llm, parse, 0);
    if g.result.Success? {
      RoundTrip(g.result.value);
    }
    match g.result {
      case Success(directive) =>
        store.UpdateSession(id, userText.value, directive.spokenText);
        resp := ChatReply(id, directive, None);
      case Failure(_) =>
        var directive := FallbackDirective(userText.value);
        store.UpdateSession(id, userText.value, directive.spokenText);
        resp := ChatReply(id, directive, Some("fallback"));
    }
  }

  /** Length in seconds of the placeholder audio for a text of `length`
      characters: 40 ms per character, at least one second and at most three. */
  function PlaceholderDuration(length: nat): (r: real)
    ensures 1.0 <= r <= 3.0
    ensures 25 <= length <= 75 ==> r == length as real * 0.04
    ensures length <= 25 ==> r == 1.0
    ensures length >= 75 ==> r == 3.0
  {
    var scaled := length as real * 0.04;
    var atLeastOne := if scaled > 1.0 then scaled else 1.0;
    if atLeastOne < 3.0 then atLeastOne else 3.0
  }

  /** The placeholder for any text fits the WAVE header's 32-bit fields. */
  lemma PlaceholderFits(length: nat)
    ensures FitsHeader(PlaceholderDuration(length), DefaultSampleRate)
  {
    var d := PlaceholderDuration(length);
    var x := d * DefaultSampleRate as real;
    assert x <= 66150.0;
    assert x.Floor <= 66150;
  }

  /** What is forwarded to the speech service: the text, and each hint as given
      or null when absent (`voice ?? null`). */
  datatype TtsRequest = TtsRequest(text: string, voice: Json, speed: Json, pitch: Json)

  /** The speech service's answer: the audio bytes, or a failure (an error
      status or an unreachable service). */
  datatype TtsReply = Audio(bytes: seq<byte>) | TtsFailed

  datatype TtsResponse =
    | TtsRejected(status: nat, error: string)
    | Wav(contentType: string, bytes: seq<byte>)

  /** `{ text, voice: voice ?? null, speed: speed ?? null, pitch: pitch ?? null }`:
      the text, and each hint the body holds, or null for one it lacks. */
  function TtsRequestFor(body: Option<Json>, text: string): (r: TtsRequest)
    ensures r.text == text
    ensures BodyField(body, "voice").Some? ==> r.voice == BodyField(body, "voice").value
    ensures BodyField(body, "voice").None? ==> r.voice == JNull
    ensures BodyField(body, "speed").Some? ==> r.speed == BodyField(body, "speed").value
    ensures BodyField(body, "speed").None? ==> r.speed == JNull
    ensures BodyField(body, "pitch").Some? ==> r.pitch == BodyField(body, "pitch").value
    ensures BodyField(body, "pitch").None? ==> r.pitch == JNull
  {
    TtsRequest(text,
               BodyField(body, "voice").GetOr(JNull),
               BodyField(body, "speed").GetOr(JNull),
               BodyField(body, "pitch").GetOr(JNull))
  }

  /** `POST /api/tts`. A missing, empty or non-string `text` is rejected with
      400. Without a configured service, or when the service fails, the answer
      is silent audio of the placeholder length; otherwise it is the service's
      audio unchanged. Every answer is labelled `audio/wav`. */
  method HandleTts(body: Option<Json>, ttsUrl: string, synthesize: TtsRequest -> TtsReply)
    returns (resp: TtsResponse)
    ensures resp.TtsRejected? <==> NonEmptyString(BodyField(body, "text")).None?
    ensures resp.TtsRejected? ==> resp == TtsRejected(400, "text is required")
    ensures resp.Wav? ==>
      var text := NonEmptyString(BodyField(body, "text")).value;
      var silent := SilentWav.SilentWav(PlaceholderDuration(|text|), DefaultSampleRate);
      && resp.contentType == "audio/wav"
      && (ttsUrl == "" ==> resp.bytes == silent)
      && (ttsUrl != "" ==>
            match synthesize(TtsRequestFor(body, text))
            case Audio(bytes) => resp.bytes == bytes
            case TtsFailed => resp.bytes == silent)
  {
    var text := NonEmptyString(BodyField(body, "text"));
    if text.None? {
      return TtsRejected(400, "text is required");
    }
    var duration := PlaceholderDuration(|text.value|);
    PlaceholderFits(|text.value|);
    if ttsUrl == "" {
      var wav := BuildSilentWav(duration, DefaultSampleRate);
      return Wav("audio/wav", wav[..]);
    }
    match synthesize(TtsRequestFor(body, text.value)) {
      case Audio(bytes) =>
        resp := Wav("audio/wav", bytes);
      case TtsFailed =>
        var wav := BuildSilentWav(duration, DefaultSampleRate);
        resp := Wav("audio/wav", wav[..]);
    }
  }
}
