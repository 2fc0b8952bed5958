/** Tool results and the events a run records (agent/dispatch.go, agent/record.go). */
module Record {

  import opened Decimal
  import opened Chat
  import opened Spill
  import opened Summaries

  /** One executed call's outcome. */
  datatype ToolRes = ToolRes(result: string, content: seq<Block>, degraded: nat, limit: OutputLimit,
                             isErr: bool, denied: bool, denyReason: string, dispatchedArgs: Option<string>)

  /** What an applied output limit did to a result. */
  datatype OutputLimit = OutputLimit(originalBytes: nat, spillRef: string, spillErr: string)

  const NO_LIMIT := OutputLimit(0, "", "")

  const ERROR_PREFIX := "ERROR: "

  function ErrorRes(msg: string): ToolRes {
    ToolRes(ERROR_PREFIX + msg, [], 0, NO_LIMIT, true, false, "", None)
  }

  function UnknownTool(name: string): ToolRes {
    ErrorRes("unknown tool \"" + name + "\"")
  }

  function NotRun(name: string): ToolRes {
    ErrorRes("tool " + name + " not run: context ended")
  }

  function DeniedRes(name: string, reason: string): ToolRes {
    ToolRes(ERROR_PREFIX + "tool " + name + " denied: " + reason, [], 0, NO_LIMIT, true, true, reason, None)
  }

  /** Model-visible text of placed blocks, a size marker standing for each media block. */
  function BlocksText(blocks: seq<Block>): string {
    if blocks == [] then ""
    else
      var b := blocks[0];
      var t := match b.kind
        case TextBlock => b.text
        case ImageBlock => "[image: " + b.mediaType + ", " + Itoa(|b.data|) + " bytes]"
        case DocumentBlock => "[document: " + b.mediaType + ", " + Itoa(|b.data|) + " bytes]"
        case ThinkingBlock => "";
      t + BlocksText(blocks[1..])
  }

  /** The outcome of a successful Tool.Run, media the profile cannot carry replaced by markers. */
  function Placed(out: seq<Block>, accepts: bool): ToolRes {
    var content := Degraded(out, accepts);
    ToolRes(BlocksText(content), content, DegradedCount(out, accepts), NO_LIMIT, false, false, "", None)
  }

  function WithText(res: ToolRes, s: string, limit: OutputLimit): ToolRes {
    res.(result := s, content := [Text(s)], limit := limit)
  }

  /** The output limit: a larger result is spilled, or head-truncated when it cannot be. */
  function Limited(res: ToolRes, max: int, sink: SinkAnswer): ToolRes {
    var size := BlocksSize(res.content);
    if max <= 0 || size <= max then res
    else
      var text := PlainText(res.content);
      match sink
      case Spilled(ref) =>
        if ValidSpillRef(ref) then WithText(res, SpillStandIn(ref, size, text, max), OutputLimit(size, ref, ""))
        else WithText(res, TruncatedText(text, size, max), OutputLimit(size, "", "sink returned an unusable ref"))
      case SinkFailed(err) => WithText(res, TruncatedText(text, size, max), OutputLimit(size, "", err))
      case NoSink => WithText(res, TruncatedText(text, size, max), OutputLimit(size, "", ""))
  }

  /** What a tool does with one call. */
  datatype ToolOutcome = Returned(blocks: seq<Block>, sink: SinkAnswer) | Errored(msg: string)
                       | Panicked(value: string) | TimedOut(after: string)

  function RunRes(name: string, o: ToolOutcome, accepts: bool, max: int): ToolRes {
    match o
    case Returned(blocks, sink) => Limited(Placed(blocks, accepts), max, sink)
    case Errored(msg) => ErrorRes(msg)
    case Panicked(v) => ErrorRes("tool " + name + " panicked: " + v)
    case TimedOut(d) => ErrorRes("tool " + name + " timed out after " + d)
  }

  /** The message that feeds an outcome back to the model. */
  function ResMessage(res: ToolRes, callId: string): Message {
    ResultMessage(callId, if res.isErr || res.content == [] then [Text(res.result)] else res.content, res.isErr)
  }

  /** The content the event carries: the blocks whenever they are not exactly one text block. */
  function EventContent(res: ToolRes): seq<Block> {
    if res.degraded > 0 || |res.content| != 1 || !res.content[0].kind.TextBlock? then res.content else []
  }

  /** A recorded call: what the ToolRun event holds. */
  datatype RunRecord = RunRecord(call: ToolCall, result: string, content: seq<Block>, degraded: nat, limit: OutputLimit,
                                 isError: bool, denied: bool, denyReason: string, dispatchedArgs: Option<string>)
  {
    /** The arguments Tool.Run received. */
    function Args(): string {
      if dispatchedArgs.Some? then dispatchedArgs.value else call.args
    }

    predicate RanWith(args: string) {
      Args() == args || (dispatchedArgs == Some("null") && args == "")
    }
  }

  function RecordOf(call: ToolCall, res: ToolRes): (r: RunRecord)
    ensures r.call == call && r.denied == res.denied
  {
    if res.denied then RunRecord(call, "", [], 0, NO_LIMIT, false, true, res.denyReason, res.dispatchedArgs)
    else RunRecord(call, res.result, EventContent(res), res.degraded, res.limit, res.isErr, false, "",
                   res.dispatchedArgs)
  }

  datatype Request = Request(messages: seq<Message>, final: bool)

  datatype Event =
    | Start(tools: seq<string>)
    | Completion(step: nat, req: Request, reply: Reply, purpose: bool)
    | ToolRun(step: nat, run: RunRecord)
    | Compacted(step: nat, before: nat, after: nat, overflow: bool)
    | Steered(step: nat, msg: Message)
    | Finalize
}
