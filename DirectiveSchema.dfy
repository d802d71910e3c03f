/** The avatar directive: the one wire format shared by the server's generation
    pipeline and the browser's avatar controller. The server (server/server.js)
    and the browser (server/front/src/avatar/types.ts) declare the same zod
    schema field for field, so it is modelled once here: typed datatypes for a
    validated directive, a decoder per schema node (zod's `safeParse`), and the
    encoder `res.json` applies when the server sends a directive. */
module DirectiveSchema {
  import opened Wrappers
  import opened Json

  datatype Emotion = Neutral | Happy | Sad | Angry | Shy | Excited | Tired | Surprised

  datatype MotionPriority = Idle | Normal | Force

  datatype Gesture = Gesture(motion: Option<string>, priority: MotionPriority)

  /** One parameter write of a micro-timeline frame: animate `id` to `value`
      over `fade` seconds. */
  datatype ParamTarget = ParamTarget(id: string, value: real, fade: real)

  /** A micro-timeline frame, due `t` seconds after the directive is applied. */
  datatype Frame = Frame(t: real, params: seq<ParamTarget>)

  datatype TtsHints = TtsHints(voice: Option<string>, speed: Option<real>, pitch: Option<real>)

  datatype Directive = Directive(
    spokenText: string,
    emotion: Emotion,
    intensity: real,
    gesture: Gesture,
    expression: Option<string>,
    microTimeline: seq<Frame>,
    tts: TtsHints)

  /** The eight emotion names, in the order the schema lists them. */
  const EmotionNames: seq<string> :=
    ["neutral", "happy", "sad", "angry", "shy", "excited", "tired", "surprised"]

  const PriorityNames: seq<string> := ["idle", "normal", "force"]

  function EmotionName(e: Emotion): string {
    match e
    case Neutral => "neutral"
    case Happy => "happy"
    case Sad => "sad"
    case Angry => "angry"
    case Shy => "shy"
    case Excited => "excited"
    case Tired => "tired"
    case Surprised => "surprised"
  }

  function PriorityName(p: MotionPriority): string {
    match p
    case Idle => "idle"
    case Normal => "normal"
    case Force => "force"
  }

  // ---------------------------------------------------------------------------
  // Validity: the numeric constraints the schema puts on a typed directive

  predicate ValidParam(p: ParamTarget) {
    p.fade >= 0.0
  }

  predicate ValidFrame(f: Frame) {
    f.t >= 0.0 && forall p :: p in f.params ==> ValidParam(p)
  }

  /** What a directive must satisfy beyond its types: intensity in [0, 1], every
      frame time and every fade non-negative. Parameter values are unconstrained. */
  predicate ValidDirective(d: Directive) {
    && 0.0 <= d.intensity <= 1.0
    && forall f :: f in d.microTimeline ==> ValidFrame(f)
  }

  // ---------------------------------------------------------------------------
  // Decoders: one per schema node. The argument is the value found at that
  // node, None when it is `undefined` (a missing key).

  /** `z.string()` */
  function DecodeString(v: Option<Json>): (r: Option<string>)
    ensures r.Some? <==> v.Some? && v.value.JStr?
    ensures r.Some? ==> v == Some(JStr(r.value))
  {
    if v.Some? && v.value.JStr? then Some(v.value.s) else None
  }

  /** `z.number()` */
  function DecodeNumber(v: Option<Json>): (r: Option<real>)
    ensures r.Some? <==> v.Some? && v.value.JNum?
    ensures r.Some? ==> v == Some(JNum(r.value))
  {
    if v.Some? && v.value.JNum? then Some(v.value.n) else None
  }

  /** `z.string().nullable()`: null or a string; `undefined` is rejected. */
  function DecodeNullableString(v: Option<Json>): (r: Option<Option<string>>)
    ensures r.Some? ==> v == Some(EncodeNullableString(r.value))
  {
    if v == Some(JNull) then Some(None)
    else var s :- DecodeString(v); Some(Some(s))
  }

  /** `z.number().nullable()` */
  function DecodeNullableNumber(v: Option<Json>): (r: Option<Option<real>>)
    ensures r.Some? ==> v == Some(EncodeNullableNumber(r.value))
  {
    if v == Some(JNull) then Some(None)
    else var n :- DecodeNumber(v); Some(Some(n))
  }

  /** `z.enum([...eight emotions...])` */
  function DecodeEmotion(v: Option<Json>): (r: Option<Emotion>)
    ensures r.Some? ==> v == Some(JStr(EmotionName(r.value)))
  {
    var s :- DecodeString(v);
    if s == "neutral" then Some(Neutral)
    else if s == "happy" then Some(Happy)
    else if s == "sad" then Some(Sad)
    else if s == "angry" then Some(Angry)
    else if s == "shy" then Some(Shy)
    else if s == "excited" then Some(Excited)
    else if s == "tired" then Some(Tired)
    else if s == "surprised" then Some(Surprised)
    else None
  }

  /** `z.enum(["idle", "normal", "force"])` */
  function DecodePriority(v: Option<Json>): Option<MotionPriority> {
    var s :- DecodeString(v);
    if s == "idle" then Some(Idle)
    else if s == "normal" then Some(Normal)
    else if s == "force" then Some(Force)
    else None
  }

  /** `z.number().min(0).max(1)` */
  function DecodeIntensity(v: Option<Json>): (r: Option<real>)
    ensures r.Some? ==> v == Some(JNum(r.value)) && 0.0 <= r.value <= 1.0
  {
    var n :- DecodeNumber(v);
    if 0.0 <= n <= 1.0 then Some(n) else None
  }

  /** `z.number().min(0)` */
  function DecodeNonNegative(v: Option<Json>): (r: Option<real>)
    ensures r.Some? ==> v == Some(JNum(r.value)) && r.value >= 0.0
  {
    var n :- DecodeNumber(v);
    if n >= 0.0 then Some(n) else None
  }

  /** `z.object({ motion, priority })`: a gesture it yields is the one the
      object's two keys spell out. */
  function DecodeGesture(v: Option<Json>): (r: Option<Gesture>)
    ensures r.Some? ==>
      && v.Some?
      && Field(v.value, "motion") == Some(EncodeNullableString(r.value.motion))
      && Field(v.value, "priority") == Some(JStr(PriorityName(r.value.priority)))
  {
    var o :- v;
    var motion :- DecodeNullableString(Field(o, "motion"));
    var priority :- DecodePriority(Field(o, "priority"));
    Some(Gesture(motion, priority))
  }

  function DecodeParam(v: Option<Json>): Option<ParamTarget> {
    var o :- v;
    var id :- DecodeString(Field(o, "id"));
    var value :- DecodeNumber(Field(o, "value"));
    var fade :- DecodeNonNegative(Field(o, "fade"));
    Some(ParamTarget(id, value, fade))
  }

  /** `z.array(param)` over the elements of a JSON array: every element must decode. */
  function DecodeParams(items: seq<Json>): (r: Option<seq<ParamTarget>>)
    ensures r.Some? ==> |r.value| == |items|
  {
    if items == [] then Some([])
    else
      var p :- DecodeParam(Some(items[0]));
      var rest :- DecodeParams(items[1..]);
      Some([p] + rest)
  }

  /** A timeline frame: a frame it yields has the object's non-negative time
      and one parameter per element of its `params` array. */
  function DecodeFrame(v: Option<Json>): (r: Option<Frame>)
    ensures r.Some? ==>
      && v.Some?
      && Field(v.value, "t") == Some(JNum(r.value.t)) && r.value.t >= 0.0
      && Field(v.value, "params").Some? && Field(v.value, "params").value.JArr?
      && |Field(v.value, "params").value.items| == |r.value.params|
  {
    var o :- v;
    var t :- DecodeNonNegative(Field(o, "t"));
    var arr :- Field(o, "params");
    if !arr.JArr? then None
    else
      var params :- DecodeParams(arr.items);
      Some(Frame(t, params))
  }

  function DecodeFrames(items: seq<Json>): (r: Option<seq<Frame>>)
    ensures r.Some? ==> |r.value| == |items|
  {
    if items == [] then Some([])
    else
      var f :- DecodeFrame(Some(items[0]));
      var rest :- DecodeFrames(items[1..]);
      Some([f] + rest)
  }

  /** `z.array(frame).default([])`: an undefined timeline becomes the empty one. */
  function DecodeTimeline(v: Option<Json>): (r: Option<seq<Frame>>)
    ensures v.None? ==> r == Some([])
    ensures r.Some? && v.Some? ==> v.value.JArr? && |r.value| == |v.value.items|
  {
    match v
    case None => Some([])
    case Some(arr) => if arr.JArr? then DecodeFrames(arr.items) else None
  }

  /** `z.object({ voice, speed, pitch })`: the hints it yields are the ones
      the object's three keys spell out, null included. */
  function DecodeTts(v: Option<Json>): (r: Option<TtsHints>)
    ensures r.Some? ==>
      && v.Some?
      && Field(v.value, "voice") == Some(EncodeNullableString(r.value.voice))
      && Field(v.value, "speed") == Some(EncodeNullableNumber(r.value.speed))
      && Field(v.value, "pitch") == Some(EncodeNullableNumber(r.value.pitch))
  {
    var o :- v;
    var voice :- DecodeNullableString(Field(o, "voice"));
    var speed :- DecodeNullableNumber(Field(o, "speed"));
    var pitch :- DecodeNullableNumber(Field(o, "pitch"));
    Some(TtsHints(voice, speed, pitch))
  }

  /** `AvatarDirectiveSchema.safeParse(j)`: the validated directive, or None when
      `j` fails the schema. Keys the schema does not name are ignored. */
  function ParseDirective(j: Json): (r: Option<Directive>)
    ensures r.Some? ==> j.JObj?
    ensures r.Some? ==>
      && Field(j, "spokenText") == Some(JStr(r.value.spokenText))
      && Field(j, "emotion") == Some(JStr(EmotionName(r.value.emotion)))
      && Field(j, "intensity") == Some(JNum(r.value.intensity)) && 0.0 <= r.value.intensity <= 1.0
      && Field(j, "expression") == Some(EncodeNullableString(r.value.expression))
    ensures r.Some? && Field(j, "microTimeline").None? ==> r.value.microTimeline == []
  {
    var spokenText :- DecodeString(Field(j, "spokenText"));
    var emotion :- DecodeEmotion(Field(j, "emotion"));
    var intensity :- DecodeIntensity(Field(j, "intensity"));
    var gesture :- DecodeGesture(Field(j, "gesture"));
    var expression :- DecodeNullableString(Field(j, "expression"));
    var timeline :- DecodeTimeline(Field(j, "microTimeline"));
    var tts :- DecodeTts(Field(j, "tts"));
    Some(Directive(spokenText, emotion, intensity, gesture, expression, timeline, tts))
  }

  // ---------------------------------------------------------------------------
  // Encoder: the JSON a validated directive is sent as

  function EncodeNullableString(o: Option<string>): Json {
    match o
    case None => JNull
    case Some(s) => JStr(s)
  }

  function EncodeNullableNumber(o: Option<real>): Json {
    match o
    case None => JNull
    case Some(n) => JNum(n)
  }

  function EncodeParam(p: ParamTarget): Json {
    JObj(map["id" := JStr(p.id), "value" := JNum(p.value), "fade" := JNum(p.fade)])
  }

  function EncodeParams(ps: seq<ParamTarget>): seq<Json> {
    if ps == [] then [] else [EncodeParam(ps[0])] + EncodeParams(ps[1..])
  }

  function EncodeFrame(f: Frame): Json {
    JObj(map["t" := JNum(f.t), "params" := JArr(EncodeParams(f.params))])
  }

  function EncodeFrames(fs: seq<Frame>): seq<Json> {
    if fs == [] then [] else [EncodeFrame(fs[0])] + EncodeFrames(fs[1..])
  }

  /** The keys of a directive object. */
  const DirectiveKeys: set<string> :=
    {"spokenText", "emotion", "intensity", "gesture", "expression", "microTimeline", "tts"}

  /** `res.json(directive)`: an object holding exactly the schema's seven keys;
      the timeline is always present. */
  function EncodeDirective(d: Directive): (r: Json)
    ensures r.JObj? && r.fields.Keys == DirectiveKeys
    ensures Field(r, "microTimeline") == Some(JArr(EncodeFrames(d.microTimeline)))
  {
    JObj(map[
      "spokenText" := JStr(d.spokenText),
      "emotion" := JStr(EmotionName(d.emotion)),
      "intensity" := JNum(d.intensity),
      "gesture" := JObj(map[
        "motion" := EncodeNullableString(d.gesture.motion),
        "priority" := JStr(PriorityName(d.gesture.priority))]),
      "expression" := EncodeNullableString(d.expression),
      "microTimeline" := JArr(EncodeFrames(d.microTimeline)),
      "tts" := JObj(map[
        "voice" := EncodeNullableString(d.tts.voice),
        "speed" := EncodeNullableNumber(d.tts.speed),
        "pitch" := EncodeNullableNumber(d.tts.pitch)])])
  }

  // ---------------------------------------------------------------------------
  // Properties of the schema

  /** An emotion is accepted iff it is one of the eight listed names, and it
      decodes to the emotion carrying that name. */
  lemma EmotionAcceptedIff(v: Option<Json>)
    ensures DecodeEmotion(v).Some? <==> v.Some? && v.value.JStr? && v.value.s in EmotionNames
    ensures DecodeEmotion(v).Some? ==> v == Some(JStr(EmotionName(DecodeEmotion(v).value)))
  {
  }

  /** A gesture priority is accepted iff it is idle, normal or force. */
  lemma PriorityAcceptedIff(v: Option<Json>)
    ensures DecodePriority(v).Some? <==> v.Some? && v.value.JStr? && v.value.s in PriorityNames
    ensures DecodePriority(v).Some? ==> v == Some(JStr(PriorityName(DecodePriority(v).value)))
  {
  }

  /** Intensity is accepted iff it is a number in [0, 1], and is kept as given. */
  lemma IntensityAcceptedIff(v: Option<Json>)
    ensures DecodeIntensity(v).Some? <==> v.Some? && v.value.JNum? && 0.0 <= v.value.n <= 1.0
    ensures DecodeIntensity(v).Some? ==> DecodeIntensity(v).value == v.value.n
  {
  }

  /** The nullable fields accept null (as None) and a value of the base type,
      and nothing else; in particular a missing key is rejected. */
  lemma NullableAcceptedIff(v: Option<Json>)
    ensures DecodeNullableString(v).Some? <==> v == Some(JNull) || (v.Some? && v.value.JStr?)
    ensures DecodeNullableString(v) == Some(None) <==> v == Some(JNull)
    ensures DecodeNullableNumber(v).Some? <==> v == Some(JNull) || (v.Some? && v.value.JNum?)
    ensures DecodeNullableNumber(v) == Some(None) <==> v == Some(JNull)
  {
  }

  /** A parameter entry is accepted iff it is an object with a string id, a
      numeric value (any number) and a non-negative numeric fade. */
  lemma ParamAcceptedIff(v: Option<Json>)
    ensures DecodeParam(v).Some? <==>
      && v.Some?
      && DecodeString(Field(v.value, "id")).Some?
      && DecodeNumber(Field(v.value, "value")).Some?
      && DecodeNumber(Field(v.value, "fade")).Some?
      && DecodeNumber(Field(v.value, "fade")).value >= 0.0
  {
  }

  /** An array of parameters is accepted iff every element is, element by element. */
  lemma {:induction false} ParamsAcceptedIff(items: seq<Json>)
    ensures DecodeParams(items).Some? <==> forall i :: 0 <= i < |items| ==> DecodeParam(Some(items[i])).Some?
    ensures DecodeParams(items).Some? ==>
      && |DecodeParams(items).value| == |items|
      && forall i :: 0 <= i < |items| ==> DecodeParams(items).value[i] == DecodeParam(Some(items[i])).value
  {
    if items != [] {
      ParamsAcceptedIff(items[1..]);
      assert forall i :: 1 <= i < |items| ==> items[i] == items[1..][i - 1];
    }
  }

  /** A timeline array is accepted iff every frame is, element by element. */
  lemma {:induction false} FramesAcceptedIff(items: seq<Json>)
    ensures DecodeFrames(items).Some? <==> forall i :: 0 <= i < |items| ==> DecodeFrame(Some(items[i])).Some?
    ensures DecodeFrames(items).Some? ==>
      && |DecodeFrames(items).value| == |items|
      && forall i :: 0 <= i < |items| ==> DecodeFrames(items).value[i] == DecodeFrame(Some(items[i])).value
  {
    if items != [] {
      FramesAcceptedIff(items[1..]);
      assert forall i :: 1 <= i < |items| ==> items[i] == items[1..][i - 1];
    }
  }

  /** A missing `microTimeline` is treated exactly as an empty one. */
  lemma TimelineDefaultsToEmpty(fields: map<string, Json>)
    requires "microTimeline" !in fields
    ensures ParseDirective(JObj(fields)) == ParseDirective(JObj(fields["microTimeline" := JArr([])]))
    ensures ParseDirective(JObj(fields)).Some? ==> ParseDirective(JObj(fields)).value.microTimeline == []
  {
    var j, j' := JObj(fields), JObj(fields["microTimeline" := JArr([])]);
    forall k | k != "microTimeline" ensures Field(j, k) == Field(j', k) { }
  }

  lemma {:induction false} ParamsSound(items: seq<Json>)
    requires DecodeParams(items).Some?
    ensures forall p :: p in DecodeParams(items).value ==> ValidParam(p)
  {
    if items != [] {
      ParamsSound(items[1..]);
    }
  }

  lemma {:induction false} FramesSound(items: seq<Json>)
    requires DecodeFrames(items).Some?
    ensures forall f :: f in DecodeFrames(items).value ==> ValidFrame(f)
  {
    if items != [] {
      var arr := Field(items[0], "params").value;
      ParamsSound(arr.items);
      FramesSound(items[1..]);
    }
  }

  /** Every directive the schema accepts satisfies its numeric constraints. */
  lemma ParseSound(j: Json)
    requires ParseDirective(j).Some?
    ensures ValidDirective(ParseDirective(j).value)
  {
    var tl := Field(j, "microTimeline");
    if tl.Some? {
      FramesSound(tl.value.items);
    }
  }

  lemma ParamRoundTrip(p: ParamTarget)
    requires ValidParam(p)
    ensures DecodeParam(Some(EncodeParam(p))) == Some(p)
  {
    var o := EncodeParam(p);
    assert Field(o, "id") == Some(JStr(p.id));
    assert Field(o, "value") == Some(JNum(p.value));
    assert Field(o, "fade") == Some(JNum(p.fade));
  }

  lemma {:induction false} ParamsRoundTrip(ps: seq<ParamTarget>)
    requires forall p :: p in ps ==> ValidParam(p)
    ensures DecodeParams(EncodeParams(ps)) == Some(ps)
  {
    if ps != [] {
      var items := EncodeParams(ps);
      assert items[0] == EncodeParam(ps[0]) && items[1..] == EncodeParams(ps[1..]);
      assert ps[0] in ps;
      ParamRoundTrip(ps[0]);
      ParamsRoundTrip(ps[1..]);
      assert ps == [ps[0]] + ps[1..];
    }
  }

  lemma FrameRoundTrip(f: Frame)
    requires ValidFrame(f)
    ensures DecodeFrame(Some(EncodeFrame(f))) == Some(f)
  {
    var o := EncodeFrame(f);
    assert Field(o, "t") == Some(JNum(f.t));
    assert Field(o, "params") == Some(JArr(EncodeParams(f.params)));
    ParamsRoundTrip(f.params);
  }

  lemma {:induction false} FramesRoundTrip(fs: seq<Frame>)
    requires forall f :: f in fs ==> ValidFrame(f)
    ensures DecodeFrames(EncodeFrames(fs)) == Some(fs)
  {
    if fs != [] {
      var items := EncodeFrames(fs);
      assert items[0] == EncodeFrame(fs[0]) && items[1..] == EncodeFrames(fs[1..]);
      assert fs[0] in fs;
      FrameRoundTrip(fs[0]);
      FramesRoundTrip(fs[1..]);
      assert fs == [fs[0]] + fs[1..];
    }
  }

  /** The scalar fields of an encoded directive decode to the directive's own. */
  lemma EncodedScalars(d: Directive)
    ensures DecodeString(Field(EncodeDirective(d), "spokenText")) == Some(d.spokenText)
    ensures DecodeEmotion(Field(EncodeDirective(d), "emotion")) == Some(d.emotion)
    ensures DecodeNumber(Field(EncodeDirective(d), "intensity")) == Some(d.intensity)
    ensures DecodeNullableString(Field(EncodeDirective(d), "expression")) == Some(d.expression)
    ensures Field(EncodeDirective(d), "microTimeline") == Some(JArr(EncodeFrames(d.microTimeline)))
  {
    var e := EncodeDirective(d);
    assert Field(e, "spokenText") == Some(JStr(d.spokenText));
    assert Field(e, "emotion") == Some(JStr(EmotionName(d.emotion)));
    assert DecodeEmotion(Some(JStr(EmotionName(d.emotion)))) == Some(d.emotion);
    assert Field(e, "intensity") == Some(JNum(d.intensity));
    assert Field(e, "expression") == Some(EncodeNullableString(d.expression));
  }

  /** The nested objects of an encoded directive decode to the directive's own. */
  lemma EncodedObjects(d: Directive)
    ensures DecodeGesture(Field(EncodeDirective(d), "gesture")) == Some(d.gesture)
    ensures DecodeTts(Field(EncodeDirective(d), "tts")) == Some(d.tts)
  {
    var g := Field(EncodeDirective(d), "gesture").value;
    assert Field(g, "motion") == Some(EncodeNullableString(d.gesture.motion));
    assert Field(g, "priority") == Some(JStr(PriorityName(d.gesture.priority)));
    assert DecodePriority(Some(JStr(PriorityName(d.gesture.priority)))) == Some(d.gesture.priority);
    var t := Field(EncodeDirective(d), "tts").value;
    assert Field(t, "voice") == Some(EncodeNullableString(d.tts.voice));
    assert Field(t, "speed") == Some(EncodeNullableNumber(d.tts.speed));
    assert Field(t, "pitch") == Some(EncodeNullableNumber(d.tts.pitch));
  }

  /** Round trip: a valid directive sent as JSON is accepted by the schema and
      decodes to itself, field for field. */
  lemma RoundTrip(d: Directive)
    requires ValidDirective(d)
    ensures ParseDirective(EncodeDirective(d)) == Some(d)
  {
    var e := EncodeDirective(d);
    EncodedScalars(d);
    EncodedObjects(d);
    FramesRoundTrip(d.microTimeline);
    assert DecodeIntensity(Field(e, "intensity")) == Some(d.intensity);
    assert DecodeTimeline(Field(e, "microTimeline")) == Some(d.microTimeline);
  }

  /** A directive is accepted after being sent iff it satisfies the schema's
      constraints: both directions of the encoder/decoder correspondence. */
  lemma AcceptedIffValid(d: Directive)
    ensures ParseDirective(EncodeDirective(d)).Some? <==> ValidDirective(d)
  {
    if ParseDirective(EncodeDirective(d)).Some? {
      ParseSound(EncodeDirective(d));
      ParseEncodedIsSelf(d);
    }
    if ValidDirective(d) {
      RoundTrip(d);
    }
  }

  /** Whatever the schema makes of an encoded directive, it is that directive. */
  lemma ParseEncodedIsSelf(d: Directive)
    requires ParseDirective(EncodeDirective(d)).Some?
    ensures ParseDirective(EncodeDirective(d)).value == d
  {
    EncodedScalars(d);
    EncodedObjects(d);
    FramesDecodeEncoded(d.microTimeline);
  }

  lemma {:induction false} ParamsDecodeEncoded(ps: seq<ParamTarget>)
    requires DecodeParams(EncodeParams(ps)).Some?
    ensures DecodeParams(EncodeParams(ps)).value == ps
  {
    if ps != [] {
      var items := EncodeParams(ps);
      assert items[0] == EncodeParam(ps[0]) && items[1..] == EncodeParams(ps[1..]);
      var o := EncodeParam(ps[0]);
      assert Field(o, "id") == Some(JStr(ps[0].id));
      assert Field(o, "value") == Some(JNum(ps[0].value));
      assert Field(o, "fade") == Some(JNum(ps[0].fade));
      ParamsDecodeEncoded(ps[1..]);
      assert ps == [ps[0]] + ps[1..];
    }
  }

  lemma {:induction false} FramesDecodeEncoded(fs: seq<Frame>)
    requires DecodeFrames(EncodeFrames(fs)).Some?
    ensures DecodeFrames(EncodeFrames(fs)).value == fs
  {
    if fs != [] {
      var items := EncodeFrames(fs);
      assert items[0] == EncodeFrame(fs[0]) && items[1..] == EncodeFrames(fs[1..]);
      var o := EncodeFrame(fs[0]);
      assert Field(o, "t") == Some(JNum(fs[0].t));
      assert Field(o, "params") == Some(JArr(EncodeParams(fs[0].params)));
      ParamsDecodeEncoded(fs[0].params);
      FramesDecodeEncoded(fs[1..]);
      assert fs == [fs[0]] + fs[1..];
    }
  }
}
