/** Messages, responses and usage, and the request copy the Runner sends
    (llmkit.go, agent/dispatch.go). Strings are byte strings, one `char` per byte. */
module Chat {

  datatype Role = System | User | Assistant | ToolResult

  datatype BlockKind = TextBlock | ImageBlock | DocumentBlock | ThinkingBlock

  datatype Block = Block(kind: BlockKind, text: string, mediaType: string, data: string, url: string, raw: string)

  datatype ToolCall = ToolCall(id: string, name: string, args: string)

  datatype Message = Message(role: Role, content: seq<Block>, toolCalls: seq<ToolCall>,
                             toolCallId: string, isError: bool)

  datatype StopReason = EndTurn | ToolUse | MaxTokens | Refusal | ContentFilter | StopError

  datatype Usage = Usage(input: int, output: int, cacheRead: int, cacheCreation: int, reasoning: int, estimated: bool)
  {
    function Add(v: Usage): Usage {
      Usage(input + v.input, output + v.output, cacheRead + v.cacheRead,
            cacheCreation + v.cacheCreation, reasoning + v.reasoning, estimated || v.estimated)
    }
  }

  /** Usage sums like numbers: order and grouping do not matter. */
  lemma AddIsAssociative(a: Usage, b: Usage, c: Usage)
    ensures a.Add(b).Add(c) == a.Add(b.Add(c))
    ensures a.Add(b).Add(c) == a.Add(c).Add(b)
  {
  }

  lemma AddZero(a: Usage)
    ensures a.Add(ZERO_USAGE) == a && ZERO_USAGE.Add(a) == a
  {
  }

  const ZERO_USAGE := Usage(0, 0, 0, 0, 0, false)

  datatype Response = Response(text: string, blocks: seq<Block>, toolCalls: seq<ToolCall>,
                               usage: Usage, stop: StopReason)
  {
    /** The assistant turn the response becomes in the history. */
    function Turn(): Message {
      var content :=
        if |blocks| > 0 then
          if text != "" && !exists i :: 0 <= i < |blocks| && blocks[i].kind.TextBlock?
          then blocks + [Text(text)] else blocks
        else if text != "" then [Text(text)] else [];
      Message(Assistant, content, toolCalls, "", false)
    }
  }

  function Text(s: string): Block {
    Block(TextBlock, s, "", "", "", "")
  }

  function TextMessage(role: Role, s: string): Message {
    Message(role, [Text(s)], [], "", false)
  }

  /** The concatenated text blocks of a block list. */
  function PlainText(blocks: seq<Block>): string {
    if blocks == [] then ""
    else (if blocks[0].kind.TextBlock? then blocks[0].text else "") + PlainText(blocks[1..])
  }

  function ResultMessage(callId: string, content: seq<Block>, isError: bool): Message {
    Message(ToolResult, content, [], callId, isError)
  }

  predicate IsMedia(b: Block) {
    b.kind.ImageBlock? || b.kind.DocumentBlock?
  }

  predicate HasMedia(blocks: seq<Block>) {
    exists i :: 0 <= i < |blocks| && IsMedia(blocks[i])
  }

  /** Media every profile that takes tool-result media can carry. */
  predicate PortableToolMedia(b: Block) {
    b.data != "" &&
    ((b.mediaType in ["image/png", "image/jpeg", "image/webp"] && b.kind.ImageBlock?) ||
     (b.mediaType == "application/pdf" && b.kind.DocumentBlock?))
  }

  const IMAGE_OMITTED := "[image omitted: this model does not accept images in tool results]"
  const DOCUMENT_OMITTED := "[document omitted: this model does not accept documents in tool results]"

  predicate Carried(b: Block, accepts: bool) {
    !IsMedia(b) || (accepts && PortableToolMedia(b))
  }

  function PlaceBlock(b: Block, accepts: bool): Block {
    if Carried(b, accepts) then b
    else Text(if b.kind.DocumentBlock? then DOCUMENT_OMITTED else IMAGE_OMITTED)
  }

  /** What a block list is sent as: media the profile cannot carry becomes its marker. */
  function Degraded(blocks: seq<Block>, accepts: bool): (r: seq<Block>)
    ensures |r| == |blocks|
    ensures forall i :: 0 <= i < |r| ==> r[i] == PlaceBlock(blocks[i], accepts)
  {
    seq(|blocks|, i requires 0 <= i < |blocks| => PlaceBlock(blocks[i], accepts))
  }

  function DegradedCount(blocks: seq<Block>, accepts: bool): nat {
    if blocks == [] then 0
    else (if Carried(blocks[0], accepts) then 0 else 1) + DegradedCount(blocks[1..], accepts)
  }

  lemma DegradedCountSnoc(blocks: seq<Block>, b: Block, accepts: bool)
    ensures DegradedCount(blocks + [b], accepts)
         == DegradedCount(blocks, accepts) + (if Carried(b, accepts) then 0 else 1)
  {
    if blocks == [] {
      assert ([b])[1..] == [];
    } else {
      assert (blocks + [b])[1..] == blocks[1..] + [b];
      DegradedCountSnoc(blocks[1..], b, accepts);
    }
  }

  lemma {:induction false} NothingDegraded(blocks: seq<Block>, accepts: bool)
    ensures DegradedCount(blocks, accepts) == 0 <==> forall i :: 0 <= i < |blocks| ==> Carried(blocks[i], accepts)
  {
    if blocks != [] {
      NothingDegraded(blocks[1..], accepts);
      if forall i :: 0 <= i < |blocks[1..]| ==> Carried(blocks[1..][i], accepts) {
        forall i | 1 <= i < |blocks| ensures Carried(blocks[i], accepts) {
          assert blocks[i] == blocks[1..][i - 1];
        }
      } else {
        var i :| 0 <= i < |blocks[1..]| && !Carried(blocks[1..][i], accepts);
        assert !Carried(blocks[i + 1], accepts);
      }
    }
  }

  /** Placing is idempotent: a placed list has nothing left to degrade, so sending it again
      under the same profile changes nothing. */
  lemma PlacingIsIdempotent(blocks: seq<Block>, accepts: bool)
    ensures Degraded(Degraded(blocks, accepts), accepts) == Degraded(blocks, accepts)
    ensures DegradedCount(Degraded(blocks, accepts), accepts) == 0
  {
    NothingDegraded(Degraded(blocks, accepts), accepts);
  }

  /** The copying loop of `degradeToolMedia`: it never touches its input and reports how many
      blocks it replaced. */
  method DegradeToolMedia(blocks: seq<Block>, accepts: bool) returns (placed: seq<Block>, degraded: nat)
    ensures placed == Degraded(blocks, accepts)
    ensures degraded == DegradedCount(blocks, accepts)
    ensures degraded == 0 ==> placed == blocks
  {
    var copied := false;
    placed, degraded := [], 0;
    for i := 0 to |blocks|
      invariant copied ==> placed == Degraded(blocks[..i], accepts)
      invariant !copied ==> placed == [] && degraded == 0 && Degraded(blocks[..i], accepts) == blocks[..i]
      invariant copied ==> degraded > 0
      invariant degraded == DegradedCount(blocks[..i], accepts)
    {
      var b := blocks[i];
      DegradedCountSnoc(blocks[..i], b, accepts);
      assert blocks[..i + 1] == blocks[..i] + [b];
      if !IsMedia(b) || (accepts && PortableToolMedia(b)) {
        if copied {
          placed := placed + [b];
        }
      } else {
        if !copied {
          placed, copied := blocks[..i], true;
        }
        var marker := IMAGE_OMITTED;
        if b.kind.DocumentBlock? {
          marker := DOCUMENT_OMITTED;
        }
        placed := placed + [Text(marker)];
        degraded := degraded + 1;
      }
    }
    assert blocks[..|blocks|] == blocks;
    if !copied {
      placed := blocks;
    }
  }

  function WireMessage(m: Message, accepts: bool): Message {
    if m.role.ToolResult? then m.(content := Degraded(m.content, accepts)) else m
  }

  /** The request copy of a history. */
  function Wire(msgs: seq<Message>, accepts: bool): (r: seq<Message>)
    ensures |r| == |msgs|
    ensures forall i :: 0 <= i < |r| ==> r[i] == WireMessage(msgs[i], accepts)
  {
    seq(|msgs|, i requires 0 <= i < |msgs| => WireMessage(msgs[i], accepts))
  }

  method WireMessages(history: seq<Message>, accepts: bool) returns (msgs: seq<Message>, copied: bool)
    ensures msgs == Wire(history, accepts)
    ensures !copied ==> msgs == history
  {
    msgs, copied := history, false;
    for i := 0 to |history|
      invariant |msgs| == |history|
      invariant forall j :: 0 <= j < i ==> msgs[j] == WireMessage(history[j], accepts)
      invariant forall j :: i <= j < |history| ==> msgs[j] == history[j]
      invariant !copied ==> msgs == history
    {
      var m := history[i];
      if m.role.ToolResult? && HasMedia(m.content) {
        var content, n := DegradeToolMedia(m.content, accepts);
        if n != 0 {
          msgs, copied := msgs[i := m.(content := content)], true;
        }
      }
    }
  }

  const IMAGE_ESTIMATE_TOKENS := 1568
  const DOCUMENT_ESTIMATE_BYTES := 1024

  function Max(a: int, b: int): int {
    if a > b then a else b
  }

  function BlockBytes(b: Block): nat {
    match b.kind
    case TextBlock => |b.text|
    case ImageBlock => IMAGE_ESTIMATE_TOKENS * 4
    case ThinkingBlock => Max(|b.text|, |b.raw|)
    case DocumentBlock => DOCUMENT_ESTIMATE_BYTES
  }

  function ContentBytes(blocks: seq<Block>): nat {
    if blocks == [] then 0 else BlockBytes(blocks[0]) + ContentBytes(blocks[1..])
  }

  function CallBytes(calls: seq<ToolCall>): nat {
    if calls == [] then 0 else |calls[0].name| + |calls[0].args| + CallBytes(calls[1..])
  }

  function MessageBytes(m: Message): nat {
    ContentBytes(m.content) + CallBytes(m.toolCalls)
  }

  function HistoryBytes(msgs: seq<Message>): nat {
    if msgs == [] then 0 else HistoryBytes(msgs[..|msgs| - 1]) + MessageBytes(msgs[|msgs| - 1])
  }

  /** The bytes/4 estimate every compaction trigger reads. */
  function EstimateTokens(msgs: seq<Message>): nat {
    HistoryBytes(msgs) / 4
  }

  /** Text plus media bytes of a message: what the stubber sizes a result by. */
  function SentBytes(blocks: seq<Block>): nat {
    if blocks == [] then 0
    else (if blocks[0].kind.TextBlock? || IsMedia(blocks[0])
          then |blocks[0].text| + |blocks[0].data| + |blocks[0].url| else 0) + SentBytes(blocks[1..])
  }
}
