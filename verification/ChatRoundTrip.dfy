/** What a conversation looks like after a trip through the internal representation and
    back: a normal form, defined on the wire messages alone. */
module ChatRoundTrip {
  import opened Common
  import opened ChatMessages

  // ----------------------------------------------------------------- normal form

  /** The code points with the property White_Space. */
  const WHITE_SPACE: string :=
    "\t\n\U{B}\U{C}\r \U{85}\U{A0}\U{1680}\U{2000}\U{2001}\U{2002}\U{2003}\U{2004}\U{2005}\U{2006}\U{2007}"
    + "\U{2008}\U{2009}\U{200A}\U{2028}\U{2029}\U{202F}\U{205F}\U{3000}"

  predicate IsSystem(m: Message) { m.role.System? || m.role.Developer? }

  predicate Acceptable(m: Message) {
    match m.role
    case Other(_) => false
    case Assistant => true
    case User => !m.content.Malformed? && !m.content.Absent?
    case _ => !m.content.Malformed?
  }

  function TextOf(c: Content): string {
    match c
    case Str(s) => s
    case Parts(ps) => AllText(ps)
    case _ => ""
  }

  /** The texts of all parts, whatever their kind, one after the other. */
  function AllText(ps: seq<Part>): string { if ps == [] then "" else ps[0].text + AllText(ps[1..]) }

  lemma {:induction false} PartsTextIsAllText(ps: seq<Part>)
    ensures PartsText(ps) == AllText(ps)
  {
    if |ps| > 1 {
      var front, last := ps[..|ps| - 1], ps[|ps| - 1];
      PartsTextIsAllText(front);
      AllTextSnoc(front, last);
      assert front + [last] == ps;
    }
  }

  lemma {:induction false} AllTextSnoc(ps: seq<Part>, p: Part)
    ensures AllText(ps + [p]) == AllText(ps) + p.text
  {
    if ps != [] {
      AllTextSnoc(ps[1..], p);
      assert (ps + [p])[1..] == ps[1..] + [p];
    }
  }

  /** What is blank, character by character. */
  lemma BlankMeaning(s: string)
    ensures Blank(s) <==> forall i :: 0 <= i < |s| ==> s[i] in WHITE_SPACE
  {
  }

  /** A data URI without the base64 marker gains one before its first comma. */
  function NormalUrl(u: string): string {
    if DataMeta(u).Some? && !HasSuffix(DataMeta(u).value, BASE64)
    then u[..Comma(u, |DATA|)] + BASE64 + u[Comma(u, |DATA|)..]
    else u
  }

  /** A supported part: its text, or its image without the detail. */
  function NormalPart(p: Part): seq<Part> {
    if p.kind.Text? || p.kind.InputText? then [Part(Text, p.text, None)]
    else if p.kind.ImageUrl? && p.image.Some? then [Part(ImageUrl, "", Some(Image(NormalUrl(p.image.value.url), "")))]
    else []
  }

  function Supported(ps: seq<Part>): seq<Part> {
    if ps == [] then [] else Supported(ps[..|ps| - 1]) + NormalPart(ps[|ps| - 1])
  }

  function AssistantText(ps: seq<Part>): string {
    if ps == [] then ""
    else
      var p := ps[|ps| - 1];
      AssistantText(ps[..|ps| - 1]) + if p.kind.Text? || p.kind.OutputText? then p.text else ""
  }

  function AssistantTextOf(c: Content): string {
    match c
    case Str(s) => s
    case Parts(ps) => AssistantText(ps)
    case _ => ""
  }

  function NormalCalls(calls: seq<Call>): seq<Call> {
    if calls == [] then []
    else
      var c := calls[|calls| - 1];
      NormalCalls(calls[..|calls| - 1]) + [Call(c.id, c.name, ArgsOrEmpty(c.args))]
  }

  function SomeText(text: string): Content { if text == "" then Null else Str(text) }

  function FromParts(ps: seq<Part>): seq<Message> {
    if ps == [] then []
    else if |ps| == 1 && ps[0].kind.Text? then [Message(User, Str(ps[0].text), "", [], "")]
    else [Message(User, Parts(ps), "", [], "")]
  }

  /** What becomes of a message outside the system prompt: nothing, for a user message
      without supported content. */
  function NormalTurn(m: Message): seq<Message> {
    match m.role
    case Tool => [Message(Tool, Str(TextOf(m.content)), "", [], m.callId)]
    case Assistant => [Message(Assistant, SomeText(AssistantTextOf(m.content)), "", NormalCalls(m.calls), "")]
    case User =>
      (match m.content
       case Str(s) => [Message(User, Str(s), "", [], "")]
       case Parts(ps) => FromParts(Supported(ps))
       case _ => [])
    case _ => []
  }

  function NormalTurns(ms: seq<Message>): seq<Message> {
    if ms == [] then [] else NormalTurns(ms[..|ms| - 1]) + NormalTurn(ms[|ms| - 1])
  }

  function AddLine(before: string, text: string): string {
    if text == "" then before else if before == "" then text else before + "\n" + text
  }

  /** The non-empty system and developer texts, one per line. */
  function SystemText(ms: seq<Message>): string {
    if ms == [] then ""
    else
      var m := ms[|ms| - 1];
      if IsSystem(m) then AddLine(SystemText(ms[..|ms| - 1]), TextOf(m.content)) else SystemText(ms[..|ms| - 1])
  }

  function SystemMessage(text: string): seq<Message> {
    if text == "" then [] else [Message(System, Str(text), "", [], "")]
  }

  function Normal(ms: seq<Message>): seq<Message> { SystemMessage(SystemText(ms)) + NormalTurns(ms) }

  // -------------------------------------------------------------- image addresses

  lemma CommaAt(s: string, i: nat, n: nat)
    requires i <= n < |s| && s[n] == ',' && forall j :: i <= j < n ==> s[j] != ','
    ensures Comma(s, i) == n
  {
  }

  lemma AddsMarker(u: string)
    requires DataMeta(u).Some? && !HasSuffix(DataMeta(u).value, BASE64)
    ensures NormalUrl(u) == DATA + (DataMeta(u).value + BASE64) + "," + u[Comma(u, |DATA|) + 1..]
  {
    var n := Comma(u, |DATA|);
    var meta, data := u[|DATA|..n], u[n + 1..];
    assert u[..n] == DATA + meta;
    assert u[n..] == "," + data;
    Reassociate(DATA, meta, BASE64, ",", data);
  }

  lemma Reassociate(a: string, b: string, c: string, d: string, e: string)
    ensures (a + b) + c + (d + e) == a + (b + c) + d + e
  {
  }

  lemma SourceUrlIsNormal(u: string)
    ensures SourceUrl(ImageSource(u)) == NormalUrl(u)
  {
    if DataMeta(u).Some? {
      var n := Comma(u, |DATA|);
      var meta, data := u[|DATA|..n], u[n + 1..];
      if HasSuffix(meta, BASE64) {
        KeepsMarker(u, meta, TrimSuffix(meta, BASE64), data);
      } else {
        AddsMarker(u);
        Reassociate3(DATA, meta, BASE64);
      }
    }
  }

  lemma KeepsMarker(u: string, meta: string, media: string, data: string)
    requires DataMeta(u) == Some(meta) && data == u[Comma(u, |DATA|) + 1..]
    requires HasSuffix(meta, BASE64) && media == TrimSuffix(meta, BASE64)
    ensures DATA + media + BASE64 + "," + data == u
  {
    assert meta == media + BASE64;
    Reassociate3(DATA, media, BASE64);
    assert u == DATA + meta + "," + data;
  }

  lemma Reassociate3(a: string, b: string, c: string)
    ensures a + b + c == a + (b + c)
  {
  }

  /** An image address comes back unchanged, except for data URIs that do not say they are
      base64: exactly those are changed. */
  lemma UrlUnchangedIff(u: string)
    ensures SourceUrl(ImageSource(u)) == u <==> !(DataMeta(u).Some? && !HasSuffix(DataMeta(u).value, BASE64))
  {
    SourceUrlIsNormal(u);
    if DataMeta(u).Some? && !HasSuffix(DataMeta(u).value, BASE64) {
      assert |NormalUrl(u)| == |u| + |BASE64|;
    }
  }

  /** A data URI put together from a comma-free meta part. */
  lemma DataUriParts(meta: string, data: string)
    requires forall i :: 0 <= i < |meta| ==> meta[i] != ','
    ensures DataMeta(DATA + meta + "," + data) == Some(meta)
  {
    var u := DATA + meta + "," + data;
    forall j | |DATA| <= j < |DATA| + |meta| ensures u[j] != ',' {
      assert u[j] == meta[j - |DATA|];
    }
    CommaAt(u, |DATA|, |DATA| + |meta|);
    assert u[..|DATA|] == DATA && u[|DATA|..|DATA| + |meta|] == meta;
  }

  /** What a data URI without the marker turns into. */
  lemma PlainDataUriChanges(meta: string, data: string)
    requires (forall i :: 0 <= i < |meta| ==> meta[i] != ',') && !HasSuffix(meta, BASE64)
    ensures SourceUrl(ImageSource(DATA + meta + "," + data)) == DATA + (meta + BASE64) + "," + data
  {
    var u := DATA + meta + "," + data;
    DataUriParts(meta, data);
    SourceUrlIsNormal(u);
    AddsMarker(u);
    CommaAt(u, |DATA|, |DATA| + |meta|);
    assert u[|DATA| + |meta| + 1..] == data;
  }

  /** The shortest such input: "data:," and a text in the default type. */
  lemma BareDataUriChanges(text: string)
    ensures SourceUrl(ImageSource("data:," + text)) == "data:;base64," + text
    ensures "data:;base64," + text != "data:," + text
  {
    PlainDataUriChanges("", text);
    assert DATA + "" + "," == "data:," && DATA + ("" + BASE64) + "," == "data:;base64,";
  }

  /** What the upstream is given for an image: the media type and the data of a data URI, with
      or without the marker, and any other address, one without a comma included, as it is. */
  lemma ImageMeaning(meta: string, data: string, u: string)
    ensures (forall i :: 0 <= i < |meta| ==> meta[i] != ',') && !HasSuffix(meta, ";base64") ==>
      && ImageSource("data:" + meta + "," + data) == Base64(meta, data)
      && ImageSource("data:" + (meta + ";base64") + "," + data) == Base64(meta, data)
    ensures !("data:" <= u) || (forall i :: 0 <= i < |u| ==> u[i] != ',') ==> ImageSource(u) == Remote(u)
  {
    if forall i :: 0 <= i < |meta| ==> meta[i] != ',' {
      MetaAndData(meta, data);
      assert forall i :: 0 <= i < |BASE64| ==> BASE64[i] != ',';
      MetaAndData(meta + BASE64, data);
      assert (meta + BASE64)[|meta|..] == BASE64 && (meta + BASE64)[..|meta|] == meta;
    }
  }

  lemma MetaAndData(meta: string, data: string)
    requires forall i :: 0 <= i < |meta| ==> meta[i] != ','
    ensures ImageSource("data:" + meta + "," + data) == Base64(TrimSuffix(meta, ";base64"), data)
  {
    var u := DATA + meta + "," + data;
    DataUriParts(meta, data);
    forall j | |DATA| <= j < |DATA| + |meta| ensures u[j] != ',' {
      assert u[j] == meta[j - |DATA|];
    }
    CommaAt(u, |DATA|, |DATA| + |meta|);
    assert u[|DATA| + |meta| + 1..] == data;
  }

  lemma NormalUrlIsStable(u: string)
    ensures NormalUrl(NormalUrl(u)) == NormalUrl(u)
  {
    if DataMeta(u).Some? && !HasSuffix(DataMeta(u).value, BASE64) {
      var meta := DataMeta(u).value + BASE64;
      AddsMarker(u);
      assert forall i :: 0 <= i < |BASE64| ==> BASE64[i] != ',';
      DataUriParts(meta, u[Comma(u, |DATA|) + 1..]);
      assert meta[|meta| - |BASE64|..] == BASE64;
    }
  }

  // ------------------------------------------------------------ one message each way

  /** Blocks of a user message and the normal parts that mean the same. */
  ghost predicate SameParts(bs: seq<Block>, ps: seq<Part>) {
    && ToolMessages(bs) == [] && NonTool(bs) == bs && BlockParts(bs) == ps && |bs| == |ps|
    && (forall i :: 0 <= i < |bs| ==> bs[i].Shown() && ps[i] == ShownPart(bs[i]))
  }

  lemma SamePartsSnoc(bs: seq<Block>, ps: seq<Part>, b: Block)
    requires SameParts(bs, ps) && b.Shown()
    ensures SameParts(bs + [b], ps + [ShownPart(b)])
  {
    assert (bs + [b])[..|bs|] == bs;
  }

  lemma {:induction false} UserPartsNormalize(ps: seq<Part>)
    ensures SameParts(UserBlocks(ps), Supported(ps))
  {
    if ps != [] {
      var bs, qs, p := UserBlocks(ps[..|ps| - 1]), Supported(ps[..|ps| - 1]), ps[|ps| - 1];
      UserPartsNormalize(ps[..|ps| - 1]);
      UserPartNormalizes(p);
      if UserBlock(p) == [] {
        assert bs + UserBlock(p) == bs && qs + NormalPart(p) == qs;
      } else {
        assert UserBlock(p) == [UserBlock(p)[0]];
        SamePartsSnoc(bs, qs, UserBlock(p)[0]);
      }
    }
  }

  function ShownPart(b: Block): Part
    requires b.Shown()
  {
    if b.TextBlock? then Part(Text, b.text, None) else Part(ImageUrl, "", Some(Image(SourceUrl(b.source), "")))
  }

  lemma UserPartNormalizes(p: Part)
    ensures var bs := UserBlock(p);
      && |bs| == |NormalPart(p)| <= 1
      && (|bs| == 1 ==> bs[0].Shown() && NormalPart(p) == [ShownPart(bs[0])])
  {
    if p.image.Some? {
      SourceUrlIsNormal(p.image.value.url);
    }
  }

  lemma UserTurnIsNormal(m: Message, bs: seq<Block>)
    requires m.role.User? && UserContentBlocks(m.content) == Some(bs)
    ensures UserToOpenAI(bs) == NormalTurn(m)
  {
    match m.content
    case Str(s) =>
      assert bs[..0] == [];
      assert ToolMessages(bs) == [] && NonTool(bs) == bs;
    case Parts(ps) => UserPartsNormalize(ps);
    case _ =>
  }

  lemma TextsSnoc(bs: seq<Block>, b: Block)
    requires b.TextBlock?
    ensures Texts(bs + [b]) == Texts(bs) + [b.text]
  {
    assert (bs + [b])[..|bs|] == bs;
  }

  lemma JoinSnoc(ts: seq<string>, t: string)
    ensures Join(ts + [t]) == if ts == [] then t else Join(ts) + "\n" + t
  {
    assert (ts + [t])[..|ts|] == ts;
  }

  lemma ToolTurnIsNormal(id: string, text: string)
    ensures UserToOpenAI([ToolResult(id, [TextBlock(text)])]) == [Message(Tool, Str(text), "", [], id)]
  {
    var bs := [ToolResult(id, [TextBlock(text)])];
    TextsSnoc([], TextBlock(text));
    assert JoinTexts([TextBlock(text)]) == text;
    assert bs[..0] == [];
    assert ToolMessages(bs) == [Message(Tool, Str(text), "", [], id)];
    assert NonTool(bs) == [];
  }

  lemma ConcatSnoc(bs: seq<Block>, b: Block)
    ensures ConcatTexts(bs + [b]) == ConcatTexts(bs) + if b.TextBlock? then b.text else ""
    ensures BlockCalls(bs + [b]) == BlockCalls(bs) +
      if b.ToolUse? then [Call(b.id, b.name, ArgsOrEmpty(b.input))] else []
  {
    assert (bs + [b])[..|bs|] == bs;
  }

  lemma {:induction false} AssistantTextsNormalize(ps: seq<Part>)
    ensures ConcatTexts(AssistantTexts(ps)) == AssistantText(ps) && BlockCalls(AssistantTexts(ps)) == []
  {
    if ps != [] {
      var p := ps[|ps| - 1];
      AssistantTextsNormalize(ps[..|ps| - 1]);
      ConcatSnoc(AssistantTexts(ps[..|ps| - 1]), TextBlock(p.text));
      assert AssistantTexts(ps[..|ps| - 1]) + [] == AssistantTexts(ps[..|ps| - 1]);
    }
  }

  lemma ArgsOnce(args: string)
    ensures ArgsOrEmpty(ArgsOrEmpty(args)) == ArgsOrEmpty(args)
  {
    assert !IsSpace(EMPTY_ARGS[0]);
  }

  lemma OneMoreCall(out: seq<Block>, texts: seq<Call>, before: seq<Call>, c: Call)
    requires BlockCalls(out) == texts + before
    ensures ConcatTexts(out + [ToolUse(c.id, c.name, ArgsOrEmpty(c.args))]) == ConcatTexts(out)
    ensures BlockCalls(out + [ToolUse(c.id, c.name, ArgsOrEmpty(c.args))])
         == texts + (before + [Call(c.id, c.name, ArgsOrEmpty(c.args))])
  {
    ArgsOnce(c.args);
    ConcatSnoc(out, ToolUse(c.id, c.name, ArgsOrEmpty(c.args)));
  }

  lemma {:induction false} CallsNormalize(texts: seq<Block>, calls: seq<Call>)
    ensures ConcatTexts(texts + CallBlocks(calls)) == ConcatTexts(texts)
    ensures BlockCalls(texts + CallBlocks(calls)) == BlockCalls(texts) + NormalCalls(calls)
  {
    if calls == [] {
      assert texts + [] == texts;
    } else {
      var c, before := calls[|calls| - 1], calls[..|calls| - 1];
      CallsNormalize(texts, before);
      OneMoreCall(texts + CallBlocks(before), BlockCalls(texts), NormalCalls(before), c);
      assert texts + CallBlocks(calls) == texts + CallBlocks(before) + [ToolUse(c.id, c.name, ArgsOrEmpty(c.args))];
    }
  }

  lemma AssistantTurnIsNormal(m: Message)
    requires m.role.Assistant?
    ensures [AssistantToOpenAI(AssistantContentBlocks(m))] == NormalTurn(m)
  {
    var texts: seq<Block> := match m.content
      case Str(s) => if s != "" then [TextBlock(s)] else []
      case Parts(ps) => AssistantTexts(ps)
      case _ => [];
    CallsNormalize(texts, m.calls);
    var none: seq<Call> := [];
    assert none + NormalCalls(m.calls) == NormalCalls(m.calls);
    match m.content
    case Str(s) =>
      if s != "" {
        assert texts[..0] == [];
        assert ConcatTexts(texts) == s;
      }
    case Parts(ps) => AssistantTextsNormalize(ps);
    case _ =>
  }

  // ------------------------------------------------------------------ the round trip

  /** What a conversation built from messages says back. */
  ghost predicate Says(c: Conversation, text: string, turns: seq<Message>) {
    && JoinTexts(c.system) == text
    && (c.system == [] <==> text == "")
    && |Texts(c.system)| == |c.system|
    && TurnsToOpenAI(c.turns) == turns
  }

  lemma SystemSnoc(c: Conversation, text: string, turns: seq<Message>, line: string)
    requires Says(c, text, turns) && line != ""
    ensures Says(c.(system := c.system + [TextBlock(line)]), AddLine(text, line), turns)
  {
    TextsSnoc(c.system, TextBlock(line));
    JoinSnoc(Texts(c.system), line);
  }

  lemma TurnSnoc(c: Conversation, text: string, turns: seq<Message>, t: Turn)
    requires Says(c, text, turns)
    ensures Says(WithTurn(c, t), text, turns + TurnToOpenAI(t))
  {
    assert (c.turns + [t])[..|c.turns|] == c.turns;
  }

  lemma PlainIsText(c: Content)
    ensures PlainText(c) == if c.Malformed? then None else Some(TextOf(c))
  {
    if c.Parts? {
      PartsTextIsAllText(c.parts);
    }
  }

  lemma SystemSays(c: Conversation, text: string, turns: seq<Message>, m: Message)
    requires Says(c, text, turns) && IsSystem(m) && Acceptable(m)
    ensures TakeIn(c, m).Some?
    ensures Says(TakeIn(c, m).value, AddLine(text, TextOf(m.content)), turns + NormalTurn(m))
  {
    var line := TextOf(m.content);
    PlainIsText(m.content);
    assert NormalTurn(m) == [] && turns + [] == turns;
    if line != "" {
      SystemSnoc(c, text, turns, line);
    }
  }

  lemma ToolSays(c: Conversation, text: string, turns: seq<Message>, m: Message)
    requires Says(c, text, turns) && m.role.Tool? && Acceptable(m)
    ensures TakeIn(c, m).Some? && Says(TakeIn(c, m).value, text, turns + NormalTurn(m))
  {
    PlainIsText(m.content);
    ToolTurnIsNormal(m.callId, TextOf(m.content));
    TurnSnoc(c, text, turns, Turn(false, [ToolResult(m.callId, [TextBlock(TextOf(m.content))])]));
  }

  /** Taking in one message, acceptable or not. */
  lemma TakeInSays(c: Conversation, text: string, turns: seq<Message>, m: Message)
    requires Says(c, text, turns)
    ensures TakeIn(c, m).Some? <==> Acceptable(m)
    ensures Acceptable(m) ==> Says(TakeIn(c, m).value,
      if IsSystem(m) then AddLine(text, TextOf(m.content)) else text, turns + NormalTurn(m))
  {
    if !Acceptable(m) {
      PlainIsText(m.content);
    } else {
      match m.role
      case System => SystemSays(c, text, turns, m);
      case Developer => SystemSays(c, text, turns, m);
      case Tool => ToolSays(c, text, turns, m);
      case User =>
        var bs := UserContentBlocks(m.content).value;
        UserTurnIsNormal(m, bs);
        TurnSnoc(c, text, turns, Turn(false, bs));
      case Assistant =>
        AssistantTurnIsNormal(m);
        TurnSnoc(c, text, turns, Turn(true, AssistantContentBlocks(m)));
    }
  }

  predicate AllAcceptable(ms: seq<Message>, n: nat)
    requires n <= |ms|
  {
    forall i :: 0 <= i < n ==> Acceptable(ms[i])
  }

  lemma AcceptableSnoc(before: seq<Message>, m: Message, n: nat)
    requires n <= |before|
    ensures AllAcceptable(before + [m], n) == AllAcceptable(before, n)
    ensures AllAcceptable(before + [m], |before| + 1) == (AllAcceptable(before, |before|) && Acceptable(m))
  {
    assert (before + [m])[|before|] == m;
    forall i | 0 <= i < |before| ensures (before + [m])[i] == before[i] {}
  }

  /** Intake fails exactly at the first unacceptable message. */
  ghost predicate Intake(ms: seq<Message>, r: Result<Conversation>) {
    match r
    case Ok(c) => AllAcceptable(ms, |ms|) && Says(c, SystemText(ms), NormalTurns(ms))
    case Err(k) => k < |ms| && !Acceptable(ms[k]) && AllAcceptable(ms, k)
  }

  lemma IntakeSnoc(before: seq<Message>, m: Message, r: Result<Conversation>)
    requires Intake(before, r)
    ensures Intake(before + [m], Then(r, m, |before|))
  {
    assert (before + [m])[..|before|] == before;
    match r
    case Ok(c) =>
      TakeInSays(c, SystemText(before), NormalTurns(before), m);
      AcceptableSnoc(before, m, |before|);
    case Err(k) =>
      AcceptableSnoc(before, m, k);
  }

  lemma {:induction false} IntakeMeaning(ms: seq<Message>)
    ensures Intake(ms, FromOpenAI(ms))
  {
    if ms != [] {
      IntakeMeaning(ms[..|ms| - 1]);
      IntakeSnoc(ms[..|ms| - 1], ms[|ms| - 1], FromOpenAI(ms[..|ms| - 1]));
      assert ms == ms[..|ms| - 1] + [ms[|ms| - 1]];
    }
  }

  /** Translation there and back is the normal form, and fails only on messages that are
      not acceptable. */
  lemma RoundTrip(ms: seq<Message>)
    ensures FromOpenAI(ms).Ok? <==> AllAcceptable(ms, |ms|)
    ensures FromOpenAI(ms).Ok? ==> ToOpenAI(FromOpenAI(ms).value) == Normal(ms)
  {
    IntakeMeaning(ms);
  }

  // ------------------------------------------------------------------- idempotence

  /** A message that the round trip leaves alone. */
  predicate Stable(m: Message) { Acceptable(m) && !IsSystem(m) && NormalTurn(m) == [m] }

  predicate AllStable(ms: seq<Message>) { forall i :: 0 <= i < |ms| ==> Stable(ms[i]) }

  lemma {:induction false} SupportedIsStable(ps: seq<Part>)
    ensures Supported(Supported(ps)) == Supported(ps)
  {
    if ps != [] {
      var before, one := Supported(ps[..|ps| - 1]), NormalPart(ps[|ps| - 1]);
      SupportedIsStable(ps[..|ps| - 1]);
      if one == [] {
        assert before + one == before;
      } else {
        if one[0].kind.ImageUrl? {
          NormalUrlIsStable(ps[|ps| - 1].image.value.url);
        }
        assert NormalPart(one[0]) == one;
        assert (before + one)[..|before|] == before;
      }
    }
  }

  lemma {:induction false} NormalCallsAreStable(calls: seq<Call>)
    ensures NormalCalls(NormalCalls(calls)) == NormalCalls(calls)
  {
    if calls != [] {
      var before, c := NormalCalls(calls[..|calls| - 1]), calls[|calls| - 1];
      NormalCallsAreStable(calls[..|calls| - 1]);
      ArgsOnce(c.args);
      assert NormalCalls(calls)[..|before|] == before;
    }
  }

  lemma AssistantTurnIsStable(m: Message)
    requires m.role.Assistant?
    ensures AllStable(NormalTurn(m))
  {
    NormalCallsAreStable(m.calls);
    var text := AssistantTextOf(m.content);
    assert AssistantTextOf(SomeText(text)) == text;
  }

  lemma UserTurnIsStable(m: Message)
    requires m.role.User?
    ensures AllStable(NormalTurn(m))
  {
    if m.content.Parts? {
      SupportedIsStable(m.content.parts);
      FromPartsIsStable(Supported(m.content.parts));
    }
  }

  lemma FromPartsIsStable(ps: seq<Part>)
    requires Supported(ps) == ps
    ensures AllStable(FromParts(ps))
  {
    if ps != [] {
      var out := FromParts(ps);
      if |ps| == 1 && ps[0].kind.Text? {
        assert out == [Message(User, Str(ps[0].text), "", [], "")];
      } else {
        assert out == [Message(User, Parts(ps), "", [], "")];
      }
      assert NormalTurn(out[0]) == out;
    }
  }

  lemma NormalTurnIsStable(m: Message)
    ensures AllStable(NormalTurn(m))
  {
    match m.role
    case Assistant => AssistantTurnIsStable(m);
    case User => UserTurnIsStable(m);
    case _ =>
  }

  lemma {:induction false} NormalTurnsAreStable(ms: seq<Message>)
    ensures AllStable(NormalTurns(ms))
  {
    if ms != [] {
      NormalTurnsAreStable(ms[..|ms| - 1]);
      NormalTurnIsStable(ms[|ms| - 1]);
    }
  }

  /** Taking the last message off a non-empty tail. */
  lemma LastOff(head: seq<Message>, ms: seq<Message>)
    requires ms != []
    ensures (head + ms)[..|head + ms| - 1] == head + ms[..|ms| - 1]
    ensures (head + ms)[|head + ms| - 1] == ms[|ms| - 1]
    ensures ms == ms[..|ms| - 1] + [ms[|ms| - 1]]
  {
  }

  lemma {:induction false} StableTail(head: seq<Message>, ms: seq<Message>)
    requires AllStable(ms)
    ensures SystemText(head + ms) == SystemText(head)
    ensures NormalTurns(head + ms) == NormalTurns(head) + ms
  {
    if ms == [] {
      assert head + ms == head;
      assert NormalTurns(head) + ms == NormalTurns(head);
    } else {
      var before, m := ms[..|ms| - 1], ms[|ms| - 1];
      LastOff(head, ms);
      StableTail(head, before);
      assert Stable(m);
      LastOff(NormalTurns(head), ms);
      assert NormalTurns(head) + before + [m] == NormalTurns(head) + ms;
    }
  }

  /** A system line in front of stable messages is the whole system text. */
  lemma StableIsNormal(text: string, ms: seq<Message>)
    requires AllStable(ms)
    ensures SystemText(SystemMessage(text) + ms) == text
    ensures NormalTurns(SystemMessage(text) + ms) == ms
  {
    var head := SystemMessage(text);
    StableTail(head, ms);
    if text != "" {
      assert head[..0] == [];
    }
    assert NormalTurns(head) == [];
  }

  /** The second trip never fails and changes nothing. */
  lemma SecondTripIsIdentity(ms: seq<Message>)
    ensures FromOpenAI(Normal(ms)).Ok?
    ensures Normal(Normal(ms)) == Normal(ms)
    ensures ToOpenAI(FromOpenAI(Normal(ms)).value) == Normal(ms)
  {
    NormalTurnsAreStable(ms);
    StableIsNormal(SystemText(ms), NormalTurns(ms));
    RoundTrip(Normal(ms));
    forall i | 0 <= i < |Normal(ms)| ensures Acceptable(Normal(ms)[i]) {
      if i >= |SystemMessage(SystemText(ms))| {
        assert Stable(NormalTurns(ms)[i - |SystemMessage(SystemText(ms))|]);
      }
    }
  }

  // ------------------------------------------------------------------ preservation

  function CallsOf(m: Message): seq<Call> { if m.role.Assistant? then NormalCalls(m.calls) else [] }

  function ResultsOf(m: Message): seq<(string, string)> {
    if m.role.Tool? then [(m.callId, TextOf(m.content))] else []
  }

  /** The tool calls of a conversation, with blank arguments read as the empty object. */
  function AllCalls(ms: seq<Message>): seq<Call> {
    if ms == [] then [] else AllCalls(ms[..|ms| - 1]) + CallsOf(ms[|ms| - 1])
  }

  /** The tool results: which call they answer, and their text. */
  function AllResults(ms: seq<Message>): seq<(string, string)> {
    if ms == [] then [] else AllResults(ms[..|ms| - 1]) + ResultsOf(ms[|ms| - 1])
  }

  lemma MessageSnoc(ms: seq<Message>, m: Message)
    ensures AllCalls(ms + [m]) == AllCalls(ms) + CallsOf(m)
    ensures AllResults(ms + [m]) == AllResults(ms) + ResultsOf(m)
  {
    assert (ms + [m])[..|ms|] == ms;
  }

  lemma UserTurnIsShort(m: Message)
    requires m.role.User?
    ensures |NormalTurn(m)| <= 1 && (|NormalTurn(m)| == 1 ==> NormalTurn(m)[0].role.User?)
  {
  }

  /** A message becomes at most one, with the same traffic; if none, it had none. */
  lemma TurnKeepsTraffic(m: Message)
    ensures |NormalTurn(m)| <= 1
    ensures NormalTurn(m) == [] ==> CallsOf(m) == [] && ResultsOf(m) == []
    ensures |NormalTurn(m)| == 1 ==>
      CallsOf(NormalTurn(m)[0]) == CallsOf(m) && ResultsOf(NormalTurn(m)[0]) == ResultsOf(m)
  {
    match m.role
    case Assistant => NormalCallsAreStable(m.calls);
    case User => UserTurnIsShort(m);
    case _ =>
  }

  /** What one message's normal form adds to the traffic is what the message had. */
  lemma OneTurnTraffic(out: seq<Message>, m: Message)
    ensures AllCalls(out + NormalTurn(m)) == AllCalls(out) + CallsOf(m)
    ensures AllResults(out + NormalTurn(m)) == AllResults(out) + ResultsOf(m)
  {
    TurnKeepsTraffic(m);
    var one := NormalTurn(m);
    if one == [] {
      assert out + one == out;
    } else {
      assert one == [one[0]];
      MessageSnoc(out, one[0]);
    }
  }

  lemma {:induction false} TurnsKeepTraffic(ms: seq<Message>)
    ensures AllCalls(NormalTurns(ms)) == AllCalls(ms) && AllResults(NormalTurns(ms)) == AllResults(ms)
  {
    if ms != [] {
      TurnsKeepTraffic(ms[..|ms| - 1]);
      OneTurnTraffic(NormalTurns(ms[..|ms| - 1]), ms[|ms| - 1]);
    }
  }

  lemma {:induction false} QuietHead(head: seq<Message>, ms: seq<Message>)
    requires AllCalls(head) == [] && AllResults(head) == []
    ensures AllCalls(head + ms) == AllCalls(ms) && AllResults(head + ms) == AllResults(ms)
  {
    if ms == [] {
      assert head + ms == head;
    } else {
      LastOff(head, ms);
      QuietHead(head, ms[..|ms| - 1]);
    }
  }

  /** Every tool call and every tool result survives, in order, with ids, names, arguments
      and texts. */
  lemma ToolTrafficSurvives(ms: seq<Message>)
    ensures AllCalls(Normal(ms)) == AllCalls(ms) && AllResults(Normal(ms)) == AllResults(ms)
  {
    var head := SystemMessage(SystemText(ms));
    if head != [] {
      assert head[..0] == [];
    }
    QuietHead(head, NormalTurns(ms));
    TurnsKeepTraffic(ms);
  }

  /** Arguments are changed only when blank. */
  lemma {:induction false} ArgumentsSurvive(calls: seq<Call>, i: nat)
    requires i < |calls|
    ensures |NormalCalls(calls)| == |calls|
    ensures NormalCalls(calls)[i] == calls[i].(args := if Blank(calls[i].args) then "{}" else calls[i].args)
  {
    if i < |calls| - 1 {
      ArgumentsSurvive(calls[..|calls| - 1], i);
    } else if i > 0 {
      ArgumentsSurvive(calls[..|calls| - 1], 0);
    }
  }

  // ------------------------------------------- turns that no chat request makes

  /** The ids of the tool results in a turn. */
  function UseIds(bs: seq<Block>): seq<string> {
    if bs == [] then []
    else UseIds(bs[..|bs| - 1]) + if bs[|bs| - 1].ToolResult? then [bs[|bs| - 1].useId] else []
  }

  /** A user turn with tool results and other blocks mixed, as other protocols send it: one
      tool message for each result, in order, and after them a single user message for the
      rest, if there is any. */
  lemma {:induction false} ToolsGoFirst(bs: seq<Block>)
    ensures var ms, ids := UserToOpenAI(bs), UseIds(bs);
      && |ms| == |ids| + (if exists i :: 0 <= i < |bs| && !bs[i].ToolResult? then 1 else 0)
      && (forall i :: 0 <= i < |ids| ==> ms[i].role == Tool && ms[i].callId == ids[i])
      && (|ms| > |ids| ==> ms[|ids|] == Message(User, UserContent(NonTool(bs)), "", [], ""))
  {
    IdsOfTools(bs);
    RestIsNonTool(bs);
  }

  lemma {:induction false} IdsOfTools(bs: seq<Block>)
    ensures |ToolMessages(bs)| == |UseIds(bs)|
    ensures forall i :: 0 <= i < |UseIds(bs)| ==>
      ToolMessages(bs)[i].role == Tool && ToolMessages(bs)[i].callId == UseIds(bs)[i]
  {
    if bs != [] {
      IdsOfTools(bs[..|bs| - 1]);
    }
  }

  lemma {:induction false} RestIsNonTool(bs: seq<Block>)
    ensures NonTool(bs) == [] <==> forall i :: 0 <= i < |bs| ==> bs[i].ToolResult?
  {
    if bs != [] {
      RestIsNonTool(bs[..|bs| - 1]);
    }
  }

  /** Two block lists that say the same in either kind of turn. */
  ghost predicate SaySame(a: seq<Block>, b: seq<Block>) {
    ConcatTexts(a) == ConcatTexts(b) && BlockCalls(a) == BlockCalls(b) && BlockParts(a) == BlockParts(b)
  }

  lemma SaySameSnoc(a: seq<Block>, b: seq<Block>, x: Block)
    requires SaySame(a, b)
    ensures SaySame(a + [x], b + [x])
  {
    assert (a + [x])[..|a|] == a && (b + [x])[..|b|] == b;
  }

  lemma ThinkingSaysNothing(bs: seq<Block>, thought: string)
    ensures SaySame(bs + [Thinking(thought)], bs)
  {
    assert (bs + [Thinking(thought)])[..|bs|] == bs;
    assert ConcatTexts(bs) + "" == ConcatTexts(bs);
    assert BlockCalls(bs) + [] == BlockCalls(bs) && BlockParts(bs) + [] == BlockParts(bs);
  }

  /** Thinking is not sent on, in a turn of either side. */
  lemma {:induction false} ThinkingIsDropped(before: seq<Block>, thought: string, rest: seq<Block>)
    ensures SaySame(before + [Thinking(thought)] + rest, before + rest)
    ensures AssistantToOpenAI(before + [Thinking(thought)] + rest) == AssistantToOpenAI(before + rest)
  {
    if rest == [] {
      ThinkingSaysNothing(before, thought);
      assert before + [Thinking(thought)] + rest == before + [Thinking(thought)] && before + rest == before;
    } else {
      var front, x := rest[..|rest| - 1], rest[|rest| - 1];
      ThinkingIsDropped(before, thought, front);
      SaySameSnoc(before + [Thinking(thought)] + front, before + front, x);
      assert before + [Thinking(thought)] + rest == before + [Thinking(thought)] + front + [x];
      assert before + rest == before + front + [x];
    }
  }
}
