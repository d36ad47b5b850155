/** A whole chat request through RequestFromOpenAI and RequestToOpenAI of
    internal/protocol/openai: the regenerated fields and the ones that ride along. */
module ChatRequest {
  import opened Common
  import opened ChatMessages
  import opened ChatRoundTrip

  /** Top-level field names; the second line is read by the converter but not regenerated,
      and `Field` is any name it does not know. */
  datatype Key =
    | KModel | KMessages | KStream | KStreamOptions | KTools | KToolChoice
    | KTemperature | KTopP | KMaxTokens | KMaxCompletionTokens | KStop
    | Field(name: string)
  {
    predicate Regenerated() {
      KModel? || KMessages? || KStream? || KStreamOptions? || KTools? || KToolChoice?
    }
  }

  datatype ToolKind = Unset | Function | OtherTool(name: string)

  datatype ToolDef = ToolDef(kind: ToolKind, name: string, description: string, parameters: int)

  /** A tool choice: one of the words OpenAI knows, another word, or an object naming a
      function. */
  datatype Choice = Auto | NoTool | Required | Word(s: string) | Named(name: string)

  /** A top-level value, as far as the code looks at it; `JOther` is any other JSON. */
  datatype Json =
    | JNull
    | JBool(b: bool)
    | JString(s: string)
    | JMessages(messages: seq<Message>)
    | JTools(tools: seq<ToolDef>)
    | JChoice(choice: Choice)
    | JIncludeUsage
    | JInt(n: int)
    | JReal(x: real)
    | JStrings(texts: seq<string>)
    | JOther(id: int)

  type Body = map<Key, Json>

  /** The internal request. Its tools are unmarked; its choice is never another word. */
  datatype Request = Request(
    model: string, stream: bool, sampling: Sampling, conversation: Conversation,
    tools: seq<ToolDef>, choice: Option<Choice>, extra: Body)

  /** Read for the gateway's own use; the fields themselves ride along. No token limit reads
      as 0. */
  datatype Sampling = Sampling(temperature: Option<real>, topP: Option<real>, maxTokens: int, stop: seq<string>)

  function FieldOf(b: Body, k: Key): Option<Json> { if k in b then Some(b[k]) else None }

  function Get(b: Body, k: Key): Json { if k in b then b[k] else JNull }

  /** Only function tools are kept on the way in, and all that is kept goes out. */
  function KeptTools(ts: seq<ToolDef>): seq<ToolDef> {
    if ts == [] then []
    else
      var t := ts[|ts| - 1];
      KeptTools(ts[..|ts| - 1]) + if t.kind.OtherTool? then [] else [t.(kind := Unset)]
  }

  function ToolsOut(ts: seq<ToolDef>): seq<ToolDef> {
    if ts == [] then []
    else ToolsOut(ts[..|ts| - 1]) + if ts[|ts| - 1].kind.Unset? then [ts[|ts| - 1].(kind := Function)] else []
  }

  function KnownChoice(c: Choice): Choice { if c.Word? then Auto else c }

  /** The typed fields decode. */
  predicate Decodes(b: Body) {
    && (Get(b, KModel).JNull? || Get(b, KModel).JString?)
    && (Get(b, KMessages).JNull? || Get(b, KMessages).JMessages?)
    && (Get(b, KStream).JNull? || Get(b, KStream).JBool?)
    && (Get(b, KTools).JNull? || Get(b, KTools).JTools?)
    && (Get(b, KToolChoice).JNull? || Get(b, KToolChoice).JChoice?)
    && (Get(b, KTemperature).JNull? || NumberIn(b, KTemperature).Some?)
    && (Get(b, KTopP).JNull? || NumberIn(b, KTopP).Some?)
    && (Get(b, KMaxTokens).JNull? || Get(b, KMaxTokens).JInt?)
    && (Get(b, KMaxCompletionTokens).JNull? || Get(b, KMaxCompletionTokens).JInt?)
    && (Get(b, KStop).JNull? || Get(b, KStop).JString? || Get(b, KStop).JStrings?)
  }

  function NumberIn(b: Body, k: Key): Option<real> {
    match Get(b, k)
    case JInt(n) => Some(n as real)
    case JReal(x) => Some(x)
    case _ => None
  }

  /** The completion limit wins over the older field. */
  function MaxTokensIn(b: Body): int {
    if Get(b, KMaxCompletionTokens).JInt? then Get(b, KMaxCompletionTokens).n
    else if Get(b, KMaxTokens).JInt? then Get(b, KMaxTokens).n
    else 0
  }

  /** A single stop text or a list of them. */
  function StopIn(b: Body): seq<string> {
    match Get(b, KStop)
    case JString(s) => [s]
    case JStrings(texts) => texts
    case _ => []
  }

  function SamplingIn(b: Body): Sampling {
    Sampling(NumberIn(b, KTemperature), NumberIn(b, KTopP), MaxTokensIn(b), StopIn(b))
  }

  function Model(b: Body): string { if Get(b, KModel).JString? then Get(b, KModel).s else "" }

  function MessagesIn(b: Body): seq<Message> {
    if Get(b, KMessages).JMessages? then Get(b, KMessages).messages else []
  }

  function ToolsIn(b: Body): seq<ToolDef> { if Get(b, KTools).JTools? then Get(b, KTools).tools else [] }

  function ChoiceIn(b: Body): Option<Choice> {
    if Get(b, KToolChoice).JChoice? then Some(KnownChoice(Get(b, KToolChoice).choice)) else None
  }

  predicate Streams(b: Body) { Get(b, KStream) == JBool(true) }

  function Extra(b: Body): Body { map k | k in b && !k.Regenerated() :: b[k] }

  function FromBody(b: Body): Option<Request> {
    if !Decodes(b) || Blank(Model(b)) || FromOpenAI(MessagesIn(b)).Err? then None
    else Some(Request(Model(b), Streams(b), SamplingIn(b), FromOpenAI(MessagesIn(b)).value,
                      KeptTools(ToolsIn(b)), ChoiceIn(b), Extra(b)))
  }

  /** passthroughFields deletes one regenerated key after another. */
  method PassthroughFields(b: Body) returns (extra: Body)
    ensures extra == Extra(b)
  {
    extra := b;
    var keys := [KModel, KMessages, KStream, KStreamOptions, KTools, KToolChoice];
    var i := 0;
    while i < |keys|
      invariant 0 <= i <= |keys| == 6
      invariant forall k :: k in extra <==> k in b && k !in keys[..i]
      invariant forall k :: k in extra ==> extra[k] == b[k]
    {
      extra := extra - {keys[i]};
      i := i + 1;
    }
    forall k: Key ensures k in keys[..i] <==> k.Regenerated() {
      assert k.Regenerated() ==>
        k == keys[0] || k == keys[1] || k == keys[2] || k == keys[3] || k == keys[4] || k == keys[5];
    }
  }

  method RequestFromOpenAI(b: Body) returns (r: Option<Request>)
    ensures r == FromBody(b)
  {
    if !Decodes(b) || Blank(Model(b)) {
      return None;
    }
    var c := MessagesFromOpenAI(MessagesIn(b));
    if c.Err? {
      return None;
    }
    var extra := PassthroughFields(b);
    var maxTokens := 0;
    if Get(b, KMaxCompletionTokens).JInt? {
      maxTokens := Get(b, KMaxCompletionTokens).n;
    } else if Get(b, KMaxTokens).JInt? {
      maxTokens := Get(b, KMaxTokens).n;
    }
    var sampling := Sampling(NumberIn(b, KTemperature), NumberIn(b, KTopP), maxTokens, StopIn(b));
    return Some(Request(Model(b), Streams(b), sampling, c.value, KeptTools(ToolsIn(b)), ChoiceIn(b), extra));
  }

  /** What is built from the internal request: always a model and messages, the stream
      fields together or not at all, tools and a choice when there are any. */
  function Generated(r: Request, k: Key): Option<Json> {
    match k
    case KModel => Some(JString(r.model))
    case KMessages => Some(JMessages(ToOpenAI(r.conversation)))
    case KStream => if r.stream then Some(JBool(true)) else None
    case KStreamOptions => if r.stream then Some(JIncludeUsage) else None
    case KTools => if ToolsOut(r.tools) != [] then Some(JTools(ToolsOut(r.tools))) else None
    case KToolChoice => if r.choice.Some? then Some(JChoice(KnownChoice(r.choice.value))) else None
    case _ => None
  }

  /** A body whose fields are the generated ones, then the extra ones where none was. */
  ghost predicate Rebuilt(r: Request, out: Body) {
    forall k :: FieldOf(out, k) == if Generated(r, k).Some? then Generated(r, k) else FieldOf(r.extra, k)
  }

  method Regenerate(r: Request) returns (out: Body)
    ensures forall k :: FieldOf(out, k) == Generated(r, k)
  {
    var ms := MessagesToOpenAI(r.conversation);
    out := map[KModel := JString(r.model)];
    out := out[KMessages := JMessages(ms)];
    if r.stream {
      out := out[KStream := JBool(true)];
      out := out[KStreamOptions := JIncludeUsage];
    }
    out := WithTools(out, ToolsOut(r.tools), r.choice);
  }

  method WithTools(base: Body, tools: seq<ToolDef>, choice: Option<Choice>) returns (out: Body)
    requires KTools !in base && KToolChoice !in base
    ensures FieldOf(out, KTools) == if tools != [] then Some(JTools(tools)) else None
    ensures FieldOf(out, KToolChoice) == if choice.Some? then Some(JChoice(KnownChoice(choice.value))) else None
    ensures forall k: Key :: !k.KTools? && !k.KToolChoice? ==> FieldOf(out, k) == FieldOf(base, k)
  {
    out := base;
    if tools != [] {
      out := out[KTools := JTools(tools)];
    }
    if choice.Some? {
      out := out[KToolChoice := JChoice(KnownChoice(choice.value))];
    }
  }

  /** A passed-through field never overrides one that is there. */
  method Overlay(base: Body, extra: Body) returns (out: Body)
    ensures out == extra + base
  {
    out := base;
    var left := extra.Keys;
    while left != {}
      invariant left <= extra.Keys
      invariant out == (map k | k in extra && k !in left :: extra[k]) + base
      decreases |left|
    {
      var k :| k in left;
      if k !in out {
        out := out[k := extra[k]];
      }
      left := left - {k};
    }
    assert (map k | k in extra && k !in left :: extra[k]) == extra;
  }

  method RequestToOpenAI(r: Request) returns (out: Body)
    ensures Rebuilt(r, out)
  {
    var base := Regenerate(r);
    out := Overlay(base, r.extra);
  }

  // ------------------------------------------------------------------- theorems

  /** Every field outside the regenerated set comes back with its value, no other field
      comes in, and none of them overrides a generated one. */
  lemma PassthroughIsVerbatim(b: Body, out: Body, k: Key)
    requires FromBody(b).Some? && Rebuilt(FromBody(b).value, out)
    ensures !k.Regenerated() ==> FieldOf(out, k) == FieldOf(b, k)
    ensures k.Regenerated() ==> FieldOf(out, k) == Generated(FromBody(b).value, k)
  {
    assert FieldOf(Extra(b), k) == if k.Regenerated() then None else FieldOf(b, k);
  }

  /** Function tools, unmarked ones included. */
  function NormalTools(ts: seq<ToolDef>): seq<ToolDef> {
    if ts == [] then []
    else NormalTools(ts[..|ts| - 1]) + if ts[|ts| - 1].kind.OtherTool? then [] else [ts[|ts| - 1].(kind := Function)]
  }

  lemma {:induction false} ToolsNormalize(ts: seq<ToolDef>)
    ensures ToolsOut(KeptTools(ts)) == NormalTools(ts)
  {
    if ts != [] {
      var before, t := KeptTools(ts[..|ts| - 1]), ts[|ts| - 1];
      ToolsNormalize(ts[..|ts| - 1]);
      if t.kind.OtherTool? {
        assert before + [] == before && NormalTools(ts[..|ts| - 1]) + [] == NormalTools(ts[..|ts| - 1]);
      } else {
        assert (before + [t.(kind := Unset)])[..|before|] == before;
        assert t.(kind := Unset).(kind := Function) == t.(kind := Function);
      }
    }
  }

  lemma {:induction false} NormalToolsAreStable(ts: seq<ToolDef>)
    ensures NormalTools(NormalTools(ts)) == NormalTools(ts)
  {
    if ts != [] {
      var before, t := NormalTools(ts[..|ts| - 1]), ts[|ts| - 1];
      NormalToolsAreStable(ts[..|ts| - 1]);
      if t.kind.OtherTool? {
        assert before + [] == before;
      } else {
        assert (before + [t.(kind := Function)])[..|before|] == before;
      }
    }
  }

  /** What a request's field is after the round trip, from the request alone. */
  function NormalField(b: Body, k: Key): Option<Json> {
    match k
    case KModel => Some(JString(Model(b)))
    case KMessages => Some(JMessages(Normal(MessagesIn(b))))
    case KStream => if Streams(b) then Some(JBool(true)) else None
    case KStreamOptions => if Streams(b) then Some(JIncludeUsage) else None
    case KTools => if NormalTools(ToolsIn(b)) != [] then Some(JTools(NormalTools(ToolsIn(b)))) else None
    case KToolChoice => if ChoiceIn(b).Some? then Some(JChoice(ChoiceIn(b).value)) else None
    case _ => FieldOf(b, k)
  }

  lemma GeneratedIsNormal(b: Body, k: Key)
    requires FromBody(b).Some? && k.Regenerated()
    ensures Generated(FromBody(b).value, k) == NormalField(b, k)
  {
    match k
    case KMessages => RoundTrip(MessagesIn(b));
    case KTools => ToolsNormalize(ToolsIn(b));
    case _ =>
  }

  ghost predicate IsNormalOf(b: Body, out: Body) { forall k :: FieldOf(out, k) == NormalField(b, k) }

  /** The round trip of a whole request. */
  lemma RequestRoundTrip(b: Body, out: Body)
    requires FromBody(b).Some? && Rebuilt(FromBody(b).value, out)
    ensures IsNormalOf(b, out)
  {
    forall k ensures FieldOf(out, k) == NormalField(b, k) {
      PassthroughIsVerbatim(b, out, k);
      if k.Regenerated() {
        GeneratedIsNormal(b, k);
      }
    }
  }

  /** In particular the tool choice: the words that OpenAI knows and a named function come
      back, any other word as "auto", and no choice stays none. */
  lemma ToolChoiceSurvives(b: Body, out: Body, word: string, name: string)
    requires FromBody(b).Some? && Rebuilt(FromBody(b).value, out)
    ensures var before, after := FieldOf(b, KToolChoice), FieldOf(out, KToolChoice);
      && (before == None || before == Some(JNull) ==> after == None)
      && (before == Some(JChoice(Auto)) ==> after == Some(JChoice(Auto)))
      && (before == Some(JChoice(NoTool)) ==> after == Some(JChoice(NoTool)))
      && (before == Some(JChoice(Required)) ==> after == Some(JChoice(Required)))
      && (before == Some(JChoice(Named(name))) ==> after == Some(JChoice(Named(name))))
      && (before == Some(JChoice(Word(word))) ==> after == Some(JChoice(Auto)))
  {
    RequestRoundTrip(b, out);
    assert FieldOf(out, KToolChoice) == NormalField(b, KToolChoice);
  }

  /** A number as the code reads it: absent and null are no number. */
  predicate ReadsAs(field: Option<Json>, x: Option<real>) {
    match field
    case Some(JInt(n)) => x == Some(n as real)
    case Some(JReal(y)) => x == Some(y)
    case _ => x == None
  }

  /** What the gateway itself reads off an accepted request. The completion limit wins over
      the older one, none is 0, and a single stop text is a list of one. */
  lemma FieldsRead(b: Body)
    requires FromBody(b).Some?
    ensures var r := FromBody(b).value;
      && FieldOf(b, KModel) == Some(JString(r.model))
      && (r.stream <==> FieldOf(b, KStream) == Some(JBool(true)))
      && ReadsAs(FieldOf(b, KTemperature), r.sampling.temperature) && ReadsAs(FieldOf(b, KTopP), r.sampling.topP)
      && (match FieldOf(b, KMaxCompletionTokens)
          case Some(JInt(n)) => r.sampling.maxTokens == n
          case _ =>
            match FieldOf(b, KMaxTokens)
            case Some(JInt(n)) => r.sampling.maxTokens == n
            case _ => r.sampling.maxTokens == 0)
      && (match FieldOf(b, KStop)
          case Some(JString(text)) => r.sampling.stop == [text]
          case Some(JStrings(texts)) => r.sampling.stop == texts
          case _ => r.sampling.stop == [])
  {
  }

  /** A field that is absent, null, or of one of these kinds. */
  ghost predicate AbsentOr(b: Body, k: Key, kinds: Json -> bool) { k in b ==> b[k].JNull? || kinds(b[k]) }

  lemma DecodesMeaning(b: Body)
    ensures Decodes(b) <==>
      && AbsentOr(b, KModel, (v: Json) => v.JString?) && AbsentOr(b, KMessages, (v: Json) => v.JMessages?)
      && AbsentOr(b, KStream, (v: Json) => v.JBool?)
      && AbsentOr(b, KTools, (v: Json) => v.JTools?) && AbsentOr(b, KToolChoice, (v: Json) => v.JChoice?)
      && AbsentOr(b, KTemperature, (v: Json) => v.JInt? || v.JReal?)
      && AbsentOr(b, KTopP, (v: Json) => v.JInt? || v.JReal?)
      && AbsentOr(b, KMaxTokens, (v: Json) => v.JInt?) && AbsentOr(b, KMaxCompletionTokens, (v: Json) => v.JInt?)
      && AbsentOr(b, KStop, (v: Json) => v.JString? || v.JStrings?)
  {
  }

  /** A request is taken exactly when its fields have their types, its model is text that is
      not blank, and every message is acceptable. */
  lemma TakenIff(b: Body)
    ensures FromBody(b).Some? <==>
      && Decodes(b) && KModel in b && b[KModel].JString? && !Blank(b[KModel].s)
      && (KMessages in b && b[KMessages].JMessages? ==>
            var ms := b[KMessages].messages; forall i :: 0 <= i < |ms| ==> Acceptable(ms[i]))
  {
    RoundTrip(MessagesIn(b));
  }

  lemma SecondTripIsAccepted(b: Body, out: Body)
    requires FromBody(b).Some? && IsNormalOf(b, out)
    ensures FromBody(out).Some?
  {
    SecondTripIsIdentity(MessagesIn(b));
    SameTypedFields(b, out);
  }

  /** What is normal already stays as it is. */
  lemma NormalIsStable(b: Body, out: Body, k: Key)
    requires FromBody(b).Some? && IsNormalOf(b, out)
    ensures NormalField(out, k) == FieldOf(out, k)
  {
    assert FieldOf(out, k) == NormalField(b, k);
    SameTypedFields(b, out);
    match k
    case KMessages => SecondTripIsIdentity(MessagesIn(b));
    case KTools => NormalToolsAreStable(ToolsIn(b));
    case _ =>
  }

  /** A second trip never fails and changes nothing more. */
  lemma SecondRequestTrip(b: Body, out: Body, again: Body)
    requires FromBody(b).Some? && Rebuilt(FromBody(b).value, out)
    ensures FromBody(out).Some?
    ensures Rebuilt(FromBody(out).value, again) ==> again == out
  {
    RequestRoundTrip(b, out);
    SecondTripIsAccepted(b, out);
    if Rebuilt(FromBody(out).value, again) {
      RequestRoundTrip(out, again);
      forall k ensures FieldOf(again, k) == FieldOf(out, k) {
        NormalIsStable(b, out, k);
      }
      SameFields(again, out);
    }
  }

  lemma SameTypedFields(b: Body, out: Body)
    requires FromBody(b).Some? && IsNormalOf(b, out)
    ensures Decodes(out) && Model(out) == Model(b) && Streams(out) == Streams(b)
    ensures MessagesIn(out) == Normal(MessagesIn(b)) && ToolsIn(out) == NormalTools(ToolsIn(b))
    ensures ChoiceIn(out) == ChoiceIn(b)
  {
    assert FieldOf(out, KModel) == NormalField(b, KModel);
    assert FieldOf(out, KMessages) == NormalField(b, KMessages);
    assert FieldOf(out, KStream) == NormalField(b, KStream);
    assert FieldOf(out, KTools) == NormalField(b, KTools);
    assert FieldOf(out, KToolChoice) == NormalField(b, KToolChoice);
    SamplingRidesAlong(b, out);
  }

  /** The sampling fields and what is read from them survive the trip. */
  lemma SamplingRidesAlong(b: Body, out: Body)
    requires Decodes(b) && IsNormalOf(b, out)
    ensures SamplingIn(out) == SamplingIn(b)
    ensures forall k :: k in {KTemperature, KTopP, KMaxTokens, KMaxCompletionTokens, KStop} ==> Get(out, k) == Get(b, k)
  {
    assert FieldOf(out, KTemperature) == FieldOf(b, KTemperature);
    assert FieldOf(out, KTopP) == FieldOf(b, KTopP);
    assert FieldOf(out, KMaxTokens) == FieldOf(b, KMaxTokens);
    assert FieldOf(out, KMaxCompletionTokens) == FieldOf(b, KMaxCompletionTokens);
    assert FieldOf(out, KStop) == FieldOf(b, KStop);
  }

  lemma SameFields(a: Body, b: Body)
    requires forall k :: FieldOf(a, k) == FieldOf(b, k)
    ensures a == b
  {
    forall k ensures (k in a <==> k in b) && (k in a ==> a[k] == b[k]) {
      assert FieldOf(a, k) == FieldOf(b, k);
    }
  }
}
