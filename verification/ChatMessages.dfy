/** Chat messages between the OpenAI wire form and the gateway's own representation:
    internal/protocol/openai/request.go and convert.go. JSON text is abstract; a message
    content is one of the shapes the code tells apart. */
module ChatMessages {
  import opened Common

  datatype Result<+T> = Ok(value: T) | Err(message: nat)

  // ------------------------------------------------------------------ wire form

  datatype Role = System | Developer | User | Assistant | Tool | Other(name: string)

  datatype Kind = Text | InputText | OutputText | ImageUrl | OtherKind(name: string)

  datatype Image = Image(url: string, detail: string)

  datatype Part = Part(kind: Kind, text: string, image: Option<Image>)

  /** Absent is a missing key, Malformed anything that is not a string or an array of
      parts. */
  datatype Content = Absent | Null | Str(s: string) | Parts(parts: seq<Part>) | Malformed

  datatype Call = Call(id: string, name: string, args: string)

  datatype Message = Message(role: Role, content: Content, name: string, calls: seq<Call>, callId: string)

  // --------------------------------------------------------- internal representation

  datatype Source = Base64(media: string, data: string) | Remote(url: string)

  datatype Block =
    | TextBlock(text: string)
    | ImageBlock(source: Source)
    | ToolUse(id: string, name: string, input: string)
    | ToolResult(useId: string, content: seq<Block>)
    | Thinking(thought: string)
  {
    predicate Shown() { TextBlock? || ImageBlock? }
  }

  datatype Turn = Turn(assistant: bool, blocks: seq<Block>)

  datatype Conversation = Conversation(system: seq<Block>, turns: seq<Turn>)

  // -------------------------------------------------------------------- strings

  /** Unicode White_Space, which strings.TrimSpace removes. */
  predicate IsSpace(c: char) {
    || '\t' <= c <= '\r' || c == ' ' || c == '\U{85}' || c == '\U{A0}' || c == '\U{1680}'
    || '\U{2000}' <= c <= '\U{200A}' || c == '\U{2028}' || c == '\U{2029}' || c == '\U{202F}'
    || c == '\U{205F}' || c == '\U{3000}'
  }

  predicate Blank(s: string) { forall i :: 0 <= i < |s| ==> IsSpace(s[i]) }

  const EMPTY_ARGS := "{}"

  function ArgsOrEmpty(args: string): string { if Blank(args) then EMPTY_ARGS else args }

  const DATA := "data:"
  const BASE64 := ";base64"

  /** The position of the first comma, |s| if there is none. */
  function Comma(s: string, i: nat): (n: nat)
    requires i <= |s|
    ensures i <= n <= |s|
    ensures forall j :: i <= j < n ==> s[j] != ','
    ensures n < |s| ==> s[n] == ','
    decreases |s| - i
  {
    if i == |s| || s[i] == ',' then i else Comma(s, i + 1)
  }

  predicate HasSuffix(s: string, suffix: string) {
    |suffix| <= |s| && s[|s| - |suffix|..] == suffix
  }

  function TrimSuffix(s: string, suffix: string): string {
    if HasSuffix(s, suffix) then s[..|s| - |suffix|] else s
  }

  /** The text between "data:" and the first comma, if there is one. */
  function DataMeta(url: string): Option<string> {
    if DATA <= url && Comma(url, |DATA|) < |url| then Some(url[|DATA|..Comma(url, |DATA|)]) else None
  }

  function ImageSource(url: string): Source {
    match DataMeta(url)
    case None => Remote(url)
    case Some(meta) => Base64(TrimSuffix(meta, BASE64), url[Comma(url, |DATA|) + 1..])
  }

  function SourceUrl(s: Source): string {
    match s
    case Base64(media, data) => DATA + media + BASE64 + "," + data
    case Remote(url) => url
  }

  // --------------------------------------------------------- wire form to blocks

  function PartsText(ps: seq<Part>): string {
    if ps == [] then "" else PartsText(ps[..|ps| - 1]) + ps[|ps| - 1].text
  }

  function PlainText(c: Content): Option<string> {
    match c
    case Absent => Some("")
    case Null => Some("")
    case Str(s) => Some(s)
    case Parts(ps) => Some(PartsText(ps))
    case Malformed => None
  }

  function UserBlock(p: Part): seq<Block> {
    match p.kind
    case Text => [TextBlock(p.text)]
    case InputText => [TextBlock(p.text)]
    case ImageUrl => if p.image.Some? then [ImageBlock(ImageSource(p.image.value.url))] else []
    case _ => []
  }

  function UserBlocks(ps: seq<Part>): seq<Block> {
    if ps == [] then [] else UserBlocks(ps[..|ps| - 1]) + UserBlock(ps[|ps| - 1])
  }

  function UserContentBlocks(c: Content): Option<seq<Block>> {
    match c
    case Str(s) => Some([TextBlock(s)])
    case Null => Some([])
    case Parts(ps) => Some(UserBlocks(ps))
    case _ => None
  }

  function AssistantTexts(ps: seq<Part>): seq<Block> {
    if ps == [] then []
    else
      var p := ps[|ps| - 1];
      AssistantTexts(ps[..|ps| - 1]) + if p.kind.Text? || p.kind.OutputText? then [TextBlock(p.text)] else []
  }

  function CallBlocks(calls: seq<Call>): seq<Block> {
    if calls == [] then []
    else
      var c := calls[|calls| - 1];
      CallBlocks(calls[..|calls| - 1]) + [ToolUse(c.id, c.name, ArgsOrEmpty(c.args))]
  }

  function AssistantContentBlocks(m: Message): seq<Block> {
    (match m.content
     case Str(s) => if s != "" then [TextBlock(s)] else []
     case Parts(ps) => AssistantTexts(ps)
     case _ => [])
    + CallBlocks(m.calls)
  }

  /** One message taken in; None when the code returns an error. */
  function TakeIn(c: Conversation, m: Message): Option<Conversation> {
    match m.role
    case System => WithSystem(c, PlainText(m.content))
    case Developer => WithSystem(c, PlainText(m.content))
    case Tool =>
      (match PlainText(m.content)
       case None => None
       case Some(text) => Some(WithTurn(c, Turn(false, [ToolResult(m.callId, [TextBlock(text)])]))))
    case User =>
      (match UserContentBlocks(m.content)
       case None => None
       case Some(blocks) => Some(WithTurn(c, Turn(false, blocks))))
    case Assistant => Some(WithTurn(c, Turn(true, AssistantContentBlocks(m))))
    case Other(_) => None
  }

  function WithSystem(c: Conversation, text: Option<string>): Option<Conversation> {
    match text
    case None => None
    case Some(t) => Some(if t == "" then c else c.(system := c.system + [TextBlock(t)]))
  }

  function WithTurn(c: Conversation, t: Turn): Conversation { c.(turns := c.turns + [t]) }

  function FromOpenAI(ms: seq<Message>): Result<Conversation> {
    if ms == [] then Ok(Conversation([], []))
    else Then(FromOpenAI(ms[..|ms| - 1]), ms[|ms| - 1], |ms| - 1)
  }

  /** The i-th message, after the ones before it. */
  function Then(r: Result<Conversation>, m: Message, i: nat): Result<Conversation> {
    if r.Err? then r
    else if TakeIn(r.value, m).None? then Err(i)
    else Ok(TakeIn(r.value, m).value)
  }

  method MessagesFromOpenAI(ms: seq<Message>) returns (r: Result<Conversation>)
    ensures r == FromOpenAI(ms)
  {
    var c := Conversation([], []);
    var i := 0;
    while i < |ms|
      invariant 0 <= i <= |ms|
      invariant FromOpenAI(ms[..i]) == Ok(c)
    {
      var m := ms[i];
      assert ms[..i + 1][..i] == ms[..i];
      var taken: Option<Conversation> := None;
      match m.role {
        case System | Developer =>
          var text := PlainText(m.content);
          if text.Some? {
            taken := Some(if text.value != "" then c.(system := c.system + [TextBlock(text.value)]) else c);
          }
        case Tool =>
          var text := PlainText(m.content);
          if text.Some? {
            taken := Some(c.(turns := c.turns + [Turn(false, [ToolResult(m.callId, [TextBlock(text.value)])])]));
          }
        case User =>
          var blocks := UserContentBlocks(m.content);
          if blocks.Some? {
            taken := Some(c.(turns := c.turns + [Turn(false, blocks.value)]));
          }
        case Assistant =>
          taken := Some(c.(turns := c.turns + [Turn(true, AssistantContentBlocks(m))]));
        case Other(_) =>
      }
      if taken.None? {
        FailsAt(ms, i);
        return Err(i);
      }
      c := taken.value;
      i := i + 1;
    }
    assert ms[..i] == ms;
    return Ok(c);
  }

  lemma {:induction false} FailsAt(ms: seq<Message>, i: nat)
    requires i < |ms| && FromOpenAI(ms[..i + 1]) == Err(i)
    ensures FromOpenAI(ms) == Err(i)
  {
    if i + 1 == |ms| {
      assert ms[..i + 1] == ms;
    } else {
      assert ms[..|ms| - 1][..i + 1] == ms[..i + 1];
      FailsAt(ms[..|ms| - 1], i);
    }
  }

  // --------------------------------------------------------- blocks to wire form

  function Texts(bs: seq<Block>): seq<string> {
    if bs == [] then []
    else Texts(bs[..|bs| - 1]) + if bs[|bs| - 1].TextBlock? then [bs[|bs| - 1].text] else []
  }

  function Join(ts: seq<string>): string {
    if |ts| == 0 then ""
    else if |ts| == 1 then ts[0]
    else Join(ts[..|ts| - 1]) + "\n" + ts[|ts| - 1]
  }

  /** The texts of the text blocks, newline-separated. */
  function JoinTexts(bs: seq<Block>): string { Join(Texts(bs)) }

  function ConcatTexts(bs: seq<Block>): string {
    if bs == [] then ""
    else ConcatTexts(bs[..|bs| - 1]) + if bs[|bs| - 1].TextBlock? then bs[|bs| - 1].text else ""
  }

  function BlockCalls(bs: seq<Block>): seq<Call> {
    if bs == [] then []
    else
      var b := bs[|bs| - 1];
      BlockCalls(bs[..|bs| - 1]) + if b.ToolUse? then [Call(b.id, b.name, ArgsOrEmpty(b.input))] else []
  }

  function AssistantToOpenAI(bs: seq<Block>): Message {
    var text := ConcatTexts(bs);
    Message(Assistant, if text == "" then Null else Str(text), "", BlockCalls(bs), "")
  }

  function ToolMessages(bs: seq<Block>): seq<Message> {
    if bs == [] then []
    else
      var b := bs[|bs| - 1];
      ToolMessages(bs[..|bs| - 1]) +
        if b.ToolResult? then [Message(Tool, Str(JoinTexts(b.content)), "", [], b.useId)] else []
  }

  function NonTool(bs: seq<Block>): seq<Block> {
    if bs == [] then []
    else NonTool(bs[..|bs| - 1]) + if bs[|bs| - 1].ToolResult? then [] else [bs[|bs| - 1]]
  }

  function BlockParts(bs: seq<Block>): seq<Part> {
    if bs == [] then []
    else
      BlockParts(bs[..|bs| - 1]) +
        match bs[|bs| - 1]
        case TextBlock(t) => [Part(Text, t, None)]
        case ImageBlock(s) => [Part(ImageUrl, "", Some(Image(SourceUrl(s), "")))]
        case _ => []
  }

  function UserContent(bs: seq<Block>): Content {
    if |bs| == 1 && bs[0].TextBlock? then Str(bs[0].text) else Parts(BlockParts(bs))
  }

  function UserToOpenAI(bs: seq<Block>): seq<Message> {
    ToolMessages(bs) + if NonTool(bs) == [] then [] else [Message(User, UserContent(NonTool(bs)), "", [], "")]
  }

  function TurnToOpenAI(t: Turn): seq<Message> {
    if t.assistant then [AssistantToOpenAI(t.blocks)] else UserToOpenAI(t.blocks)
  }

  function TurnsToOpenAI(ts: seq<Turn>): seq<Message> {
    if ts == [] then [] else TurnsToOpenAI(ts[..|ts| - 1]) + TurnToOpenAI(ts[|ts| - 1])
  }

  function ToOpenAI(c: Conversation): seq<Message> {
    SystemHead(c.system) + TurnsToOpenAI(c.turns)
  }

  method UserTurnToOpenAI(bs: seq<Block>) returns (toolMsgs: seq<Message>, userMsg: Option<Message>)
    ensures toolMsgs + (if userMsg.Some? then [userMsg.value] else []) == UserToOpenAI(bs)
  {
    toolMsgs := [];
    var nonTool: seq<Block> := [];
    var i := 0;
    while i < |bs|
      invariant 0 <= i <= |bs|
      invariant toolMsgs == ToolMessages(bs[..i]) && nonTool == NonTool(bs[..i])
    {
      assert bs[..i + 1][..i] == bs[..i];
      if bs[i].ToolResult? {
        toolMsgs := toolMsgs + [Message(Tool, Str(JoinTexts(bs[i].content)), "", [], bs[i].useId)];
      } else {
        nonTool := nonTool + [bs[i]];
      }
      i := i + 1;
    }
    assert bs[..i] == bs;
    userMsg := if nonTool == [] then None else Some(Message(User, UserContent(nonTool), "", [], ""));
  }

  function SystemHead(system: seq<Block>): seq<Message> {
    if system == [] then [] else [Message(System, Str(JoinTexts(system)), "", [], "")]
  }

  lemma OneMoreTurn(head: seq<Message>, ts: seq<Turn>, i: nat)
    requires i < |ts|
    ensures head + TurnsToOpenAI(ts[..i + 1]) == head + TurnsToOpenAI(ts[..i]) + TurnToOpenAI(ts[i])
  {
    assert ts[..i + 1][..i] == ts[..i];
  }

  method MessagesToOpenAI(c: Conversation) returns (ms: seq<Message>)
    ensures ms == ToOpenAI(c)
  {
    ms := [];
    if c.system != [] {
      ms := [Message(System, Str(JoinTexts(c.system)), "", [], "")];
    }
    ghost var head := ms;
    assert head == SystemHead(c.system);
    assert head + TurnsToOpenAI([]) == head;
    var ts, i := c.turns, 0;
    while i < |ts|
      invariant 0 <= i <= |ts|
      invariant ms == head + TurnsToOpenAI(ts[..i])
    {
      OneMoreTurn(head, ts, i);
      var one: seq<Message>;
      if ts[i].assistant {
        one := [AssistantToOpenAI(ts[i].blocks)];
      } else {
        var toolMsgs, userMsg := UserTurnToOpenAI(ts[i].blocks);
        one := toolMsgs + if userMsg.Some? then [userMsg.value] else [];
      }
      assert one == TurnToOpenAI(ts[i]);
      ms := ms + one;
      i := i + 1;
    }
    assert ts[..i] == ts;
  }
}
