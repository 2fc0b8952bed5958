/** The agent loop (agent/runner.go:331-1019). */
module Loop {

  import opened Decimal
  import opened Chat
  import opened Pairing
  import opened Compaction
  import opened Summaries
  import opened Triggers
  import opened CallIds
  import opened Record
  import opened Worlds

  datatype CompactorKind = Stubbing | Summarizing

  /** Chargeable tokens: no usage costs nothing. */
  type Charge = f: Usage -> int | f(ZERO_USAGE) == 0 witness (_ => 0)

  datatype Config = Config(
    maxIterations: int, tokenBudget: int, historyBudget: int, contextReserve: int, contextWindow: int,
    accepts: bool, parallel: bool, outputMax: int, finalizePrompt: string, compactor: CompactorKind,
    prompts: Prompts, charge: Charge,
    strip: string -> string, partial: string -> string, render: seq<Message> -> seq<string>)

  datatype Truncation = NotTruncated | MaxIterations | TokenBudget | BudgetPool | OutputCap | NoAnswer

  /** One run: its id, conversation, outcome and triggers, its record, and the passes its triggers have seen. */
  datatype State = State(run: string, messages: seq<Message>, iterations: nat, usage: Usage, charged: int,
                         lastStop: StopReason, finalText: string, finalized: bool, truncation: Truncation, nudges: nat,
                         triggers: Triggers, passes: seq<Pass>, log: seq<Event>, world: World)

  datatype Fault = Canceled | CompletionFailed | ContextTooLong | CompactionFailed | BadStop(reason: StopReason)

  datatype Completed = Completed(resp: Response, st: State) | Faulted(fault: Fault, st: State)

  const MAX_EMPTY_TURN_NUDGES := 2

  // ----- One completion -----

  function Charged(cfg: Config, charged: int, u: Usage): int {
    var c := cfg.charge(u);
    if c <= 0 then charged else charged + c
  }

  function Emit(st: State, ev: Event): State {
    st.(log := st.log + [ev])
  }

  function Append(st: State, m: Message): State {
    st.(messages := st.messages + [m])
  }

  function Fill(run: string, step: nat, history: seq<Message>, resp: Response): Response {
    resp.(toolCalls := Filled(run, step, history, resp.toolCalls))
  }

  /** Fold a served response into the run. */
  function Fold(cfg: Config, st: State, resp: Response): State {
    st.(iterations := st.iterations + 1, usage := st.usage.Add(resp.usage),
        charged := Charged(cfg, st.charged, resp.usage), lastStop := resp.stop, finalText := resp.text)
  }

  /** `complete`: one request, recorded; the conversation itself is not touched. */
  function Complete(cfg: Config, st: State, final: bool): (r: Completed)
    ensures Remaining(r.st.world) <= Remaining(st.world)
    ensures r.Completed? ==> Remaining(r.st.world) < Remaining(st.world)
  {
    var req := Request(Wire(st.messages, cfg.accepts), final);
    var step := st.iterations + 1;
    var (reply, w) := Ask(st.world, req);
    match reply
    case Answer(r) =>
      var resp := Fill(st.run, step, req.messages, r);
      Completed(resp, Fold(cfg, Emit(st.(world := w), Completion(step, req, Answer(resp), false)), resp))
    case Overflow(_) => Faulted(ContextTooLong, Emit(st.(world := w), Completion(step, req, reply, false)))
    case Failed(_) => Faulted(CompletionFailed, Emit(st.(world := w), Completion(step, req, reply, false)))
  }

  // ----- Compaction -----

  datatype CompactOut = CompactOut(messages: seq<Message>, calls: seq<Reply>, ok: bool)
  {
    function Usage(): Usage {
      Spend(calls)
    }
  }

  function StubOut(cfg: Config, msgs: seq<Message>): CompactOut {
    CompactOut(StubHistory(msgs, cfg.accepts), [], true)
  }

  /** The summarizing compactor at a cut. */
  function SummarizeAt(cfg: Config, w: World, msgs: seq<Message>, from: nat, at: nat): (r: (CompactOut, World))
    requires from <= at <= |msgs|
    ensures Remaining(r.1) == Remaining(w)
  {
    var (pass, w1) := AskSummary(w, cfg.strip, cfg.partial, cfg.render(Wire(msgs, cfg.accepts)[from..at]));
    match pass
    case None => (StubOut(cfg, msgs), w1)
    case Some(p) =>
      if p.result.SummaryText? then
        (CompactOut(Summarized(cfg.prompts, msgs, cfg.accepts, from, at, p.result.text), p.calls, true), w1)
      else (CompactOut(msgs, p.calls, false), w1)
  }

  /** The compactor in force: the default stubber when only stubs may be paid for. */
  function RunCompactor(cfg: Config, w: World, msgs: seq<Message>, stubOnly: bool): (r: (CompactOut, World))
    ensures Remaining(r.1) == Remaining(w)
  {
    if cfg.compactor.Stubbing? || stubOnly then (StubOut(cfg, msgs), w)
    else if w.Resuming? && w.rs.diverged then (CompactOut(msgs, [], false), w)
    else
      match SummaryCut(cfg.prompts, msgs)
      case NoCut => (StubOut(cfg, msgs), w)
      case Cut(from, at) => SummarizeAt(cfg, w, msgs, from, at)
  }

  /** The Completion events of a compactor's own model calls. */
  function PurposeEvents(step: nat, calls: seq<Reply>): (r: seq<Event>)
    ensures |r| == |calls|
    ensures forall i :: 0 <= i < |r| ==> r[i] == Completion(step, Request([], false), calls[i], true)
  {
    seq(|calls|, i requires 0 <= i < |calls| => Completion(step, Request([], false), calls[i], true))
  }

  /** Run the compactor, record and charge the calls it made. */
  function Compact(cfg: Config, st: State): (r: (CompactOut, State))
    ensures Remaining(r.1.world) == Remaining(st.world)
  {
    var (out, w) := RunCompactor(cfg, st.world, st.messages, st.triggers.stubOnly);
    (out, st.(world := w, log := st.log + PurposeEvents(st.iterations + 1, out.calls),
              usage := st.usage.Add(out.Usage()), charged := Charged(cfg, st.charged, out.Usage())))
  }

  datatype Compacting = Kept(st: State) | NotCompacted(st: State)

  /** The estimate a pass leaves: smaller only when it is applied. */
  function Applied(cfg: Config, st: State, out: CompactOut, before: nat): State {
    var after := EstimateTokens(Wire(out.messages, cfg.accepts));
    if out.messages != st.messages && after < before then
      Emit(st.(messages := out.messages), Compacted(st.iterations + 1, before, after, false))
    else st
  }

  /** `maybeCompact`: compact at the turn boundary when a trigger is due. */
  function MaybeCompact(cfg: Config, st: State): (r: Compacting)
    ensures Remaining(r.st.world) == Remaining(st.world)
  {
    var t := st.triggers;
    if t.budget <= 0 && !t.proactive then Kept(st)
    else
      var before := EstimateTokens(Wire(st.messages, cfg.accepts));
      if !t.Due(before) then Kept(st)
      else
        var (out, st1) := Compact(cfg, st);
        if !out.ok then NotCompacted(st1)
        else
          var st2 := Applied(cfg, st1, out, before);
          var after := EstimateTokens(Wire(st2.messages, cfg.accepts));
          var paid := out.Usage() != ZERO_USAGE;
          var st3 := st2.(passes := st2.passes + [AtBoundary(before, after, paid)]);
          if after == before && !paid then Kept(st3)
          else Kept(st3.(triggers := t.Rearm(t.DueByBudget(before), after, paid)))
  }

  predicate CompactionEnabled(cfg: Config) {
    cfg.historyBudget > 0 || cfg.contextReserve > 0 || cfg.compactor.Summarizing?
  }

  /** The state in which a refused request is retried with the compacted history. */
  function RetryState(cfg: Config, st: State, st1: State, out: CompactOut): State {
    var before, after := EstimateTokens(Wire(st.messages, cfg.accepts)),
      EstimateTokens(Wire(out.messages, cfg.accepts));
    var paid := out.Usage() != ZERO_USAGE;
    Emit(st1.(messages := out.messages, triggers := st.triggers.Refusal(before, after, paid),
              passes := st1.passes + [Recovery(before, after, paid)]),
         Compacted(st.iterations + 1, EstimateTokens(st.messages), EstimateTokens(out.messages), true))
  }

  /** The second half of overflow recovery: compact, and retry once if that changed the request. */
  function Recover(cfg: Config, st: State, final: bool): (r: Completed)
    ensures Remaining(r.st.world) <= Remaining(st.world)
    ensures r.Completed? ==> Remaining(r.st.world) < Remaining(st.world)
  {
    var (out, st1) := Compact(cfg, st);
    if !out.ok then Faulted(CompactionFailed, st1)
    else if out.messages == st.messages || Wire(out.messages, cfg.accepts) == Wire(st.messages, cfg.accepts)
    then Faulted(ContextTooLong, st1)
    else Complete(cfg, RetryState(cfg, st, st1, out), final)
  }

  function CompleteRecovering(cfg: Config, st: State, final: bool): (r: Completed)
    ensures Remaining(r.st.world) <= Remaining(st.world)
    ensures r.Completed? ==> Remaining(r.st.world) < Remaining(st.world)
  {
    var c := Complete(cfg, st, final);
    if c.Faulted? && c.fault == ContextTooLong && CompactionEnabled(cfg) then Recover(cfg, c.st, final) else c
  }

  const MAX_STITCH_OVERLAP := 4096

  /** The longest overlap of at most n bytes between the end of head and the start of cont. */
  function Overlap(head: string, cont: string, n: nat): (k: nat)
    requires n <= |head| && n <= |cont|
    ensures k <= n && head[|head| - k..] == cont[..k]
    ensures forall j :: k < j <= n ==> head[|head| - j..] != cont[..j]
  {
    if n == 0 then 0 else if head[|head| - n..] == cont[..n] then n else Overlap(head, cont, n - 1)
  }

  function Stitch(head: string, cont: string): (r: string)
    ensures head <= r
  {
    var m := if |head| > MAX_STITCH_OVERLAP then MAX_STITCH_OVERLAP else |head|;
    var n := if m > |cont| then |cont| else m;
    head + cont[Overlap(head, cont, n)..]
  }

  function Stitched(head: Response, cont: Response): Response {
    head.(text := Stitch(head.text, cont.text), toolCalls := cont.toolCalls, stop := cont.stop)
  }

  /** The one continuation of an answer cut off at the output cap. */
  function ContinueCapped(cfg: Config, st: State, head: Response, final: bool): (r: Completed)
    ensures Remaining(r.st.world) <= Remaining(st.world)
    ensures r.Completed? ==> Remaining(r.st.world) < Remaining(st.world)
  {
    var d := CompleteRecovering(cfg, Append(st, TextMessage(User, cfg.prompts.continueText)), final);
    if d.Faulted? then d
    else
      var resp := Stitched(head, d.resp);
      Completed(resp, Append(d.st, d.resp.Turn()).(finalText := resp.text))
  }

  function CompleteOnce(cfg: Config, st: State, final: bool): (r: Completed)
    ensures Remaining(r.st.world) <= Remaining(st.world)
    ensures r.Completed? ==> Remaining(r.st.world) < Remaining(st.world)
  {
    var c := CompleteRecovering(cfg, st, final);
    if c.Faulted? then c
    else
      var st1 := Append(c.st, c.resp.Turn());
      if c.resp.stop.MaxTokens? && c.resp.toolCalls == [] then ContinueCapped(cfg, st1, c.resp, final)
      else Completed(c.resp, st1)
  }

  // ----- The loop -----

  /** `budgetUsage`: what the token-budget check compares with the budget. */
  function Budgeted(st: State): Usage {
    st.usage.Add(Seed(st.world))
  }

  predicate OverBudget(cfg: Config, u: Usage) {
    cfg.tokenBudget >= 0 && cfg.charge(u) > cfg.tokenBudget
  }

  datatype Turned = Again(st: State) | Ended(st: State) | Broke(fault: Fault, st: State)

  /** The reserved tool-less turn at a stop. */
  function FinalTurn(cfg: Config, st: State, reason: Truncation): Completed {
    var st1 := Append(st, TextMessage(User, cfg.finalizePrompt))
                 .(finalized := true, triggers := st.triggers.(stubOnly := reason.TokenBudget? || reason.BudgetPool?));
    var m := MaybeCompact(cfg, st1);
    if m.NotCompacted? then Faulted(CompactionFailed, m.st) else CompleteOnce(cfg, m.st, true)
  }

  function Stop(cfg: Config, st: State, reason: Truncation): (r: Turned)
    ensures !r.Again?
  {
    if cfg.finalizePrompt == "" || st.finalized then Ended(st.(truncation := reason))
    else
      var c := FinalTurn(cfg, st, reason);
      if c.Faulted? then Broke(c.fault, c.st) else Ended(c.st.(truncation := reason))
  }

  function SteerMessage(blocks: seq<Block>): Message {
    Message(User, if blocks == [] then [Text("")] else blocks, [], "", false)
  }

  function Deliver(st: State, turns: seq<seq<Block>>): (r: State)
    ensures r.world == st.world && r.run == st.run && r.iterations == st.iterations && r.usage == st.usage
  {
    if turns == [] then st
    else
      var st1 := Deliver(st, turns[..|turns| - 1]);
      var m := SteerMessage(turns[|turns| - 1]);
      Append(Emit(st1, Steered(st.iterations + 1, m)), m)
  }

  function DrainInto(st: State): (r: (bool, State))
    ensures Remaining(r.1.world) == Remaining(st.world)
  {
    var (turns, w) := Drain(st.world);
    (turns != [], Deliver(st.(world := w), turns))
  }

  /** Record and append the results of a tool turn, in call order. */
  function Results(st: State, calls: seq<ToolCall>, results: seq<ToolRes>): (r: State)
    requires |results| <= |calls|
    ensures r.world == st.world && r.run == st.run && r.iterations == st.iterations && r.usage == st.usage
  {
    if results == [] then st
    else
      var n := |results| - 1;
      var st1 := Results(st, calls, results[..n]);
      Append(Emit(st1, ToolRun(st.iterations, RecordOf(calls[n], results[n]))), ResMessage(results[n], calls[n].id))
  }

  function ToolPhase(cfg: Config, st: State, calls: seq<ToolCall>): (r: Turned)
    requires forall c | c in calls :: c.id != ""
    ensures r.Again? ==> Remaining(r.st.world) <= Remaining(st.world)
  {
    var (results, w) := ExecuteTools(st.world, calls, cfg.parallel, cfg.accepts, cfg.outputMax);
    var st1 := Results(st.(world := w), calls, results);
    var (done, w1) := Cancelled(st1.world);
    var st2 := st1.(world := w1);
    if done then Broke(Canceled, st2)
    else if OverBudget(cfg, Budgeted(st2)) then Stop(cfg, st2, TokenBudget)
    else Again(st2)
  }

  /** A turn that asked for no tool: refuse, deliver queued turns, stop at the cap, nudge, or finish. */
  function NoCalls(cfg: Config, st: State, resp: Response): (r: Turned)
    ensures r.Again? ==> Remaining(r.st.world) <= Remaining(st.world)
  {
    if resp.stop.StopError? || resp.stop.Refusal? || resp.stop.ContentFilter? then Broke(BadStop(resp.stop), st)
    else
      var (delivered, st1) := DrainInto(st);
      if delivered then Again(st1)
      else if resp.stop.MaxTokens? then Ended(st1.(truncation := OutputCap))
      else if cfg.strip(resp.text) == "" then
        if st1.nudges >= MAX_EMPTY_TURN_NUDGES then Ended(st1.(truncation := NoAnswer))
        else Again(Append(st1.(nudges := st1.nudges + 1), TextMessage(User, cfg.prompts.emptyTurnNudge)))
      else Ended(st1)
  }

  /** The body of a turn once the limits and the context allow it. */
  function Body(cfg: Config, st: State): (r: Turned)
    ensures r.Again? ==> Remaining(r.st.world) < Remaining(st.world)
  {
    var (_, st1) := DrainInto(st);
    var m := MaybeCompact(cfg, st1);
    if m.NotCompacted? then Broke(CompactionFailed, m.st)
    else
      var c := CompleteOnce(cfg, m.st, false);
      if c.Faulted? then Broke(c.fault, c.st)
      else if c.resp.toolCalls == [] then NoCalls(cfg, c.st, c.resp)
      else
        ServedCallsAreNamed(cfg, m.st, false);
        ToolPhase(cfg, c.st, c.resp.toolCalls)
  }

  /** One pass of the loop. */
  function Turn(cfg: Config, st: State): (r: Turned)
    ensures r.Again? ==> Remaining(r.st.world) < Remaining(st.world)
  {
    if cfg.maxIterations >= 0 && st.iterations >= cfg.maxIterations then Stop(cfg, st, MaxIterations)
    else if OverBudget(cfg, Budgeted(st)) then Stop(cfg, st, TokenBudget)
    else
      var (exhausted, w) := PoolExhausted(st.world);
      if exhausted then Stop(cfg, st.(world := w), BudgetPool)
      else
        var (done, w1) := Cancelled(w);
        if done then Broke(Canceled, st.(world := w1)) else Body(cfg, st.(world := w1))
  }

  datatype Ending = Ending(fault: Option<Fault>, st: State)

  /** The loop: every pass that goes round again has used up at least one reply of the world. */
  function Run(cfg: Config, st: State): Ending
    decreases Remaining(st.world)
  {
    match Turn(cfg, st)
    case Again(next) => Run(cfg, next)
    case Ended(last) => Ending(None, last)
    case Broke(fault, last) => Ending(Some(fault), last)
  }

  /** The state a run starts in: its user message alone, or after the trimmed seed of the run it continues. */
  function Begin(cfg: Config, run: string, seed: seq<Message>, task: Message, offered: seq<string>, w: World): State {
    State(run, if seed == [] then [task] else Trimmed(seed) + [task], 0, ZERO_USAGE, 0, EndTurn, "", false,
          NotTruncated, 0,
          NewTriggers(cfg.historyBudget, cfg.contextReserve, cfg.contextWindow), [], [Start(offered)], w)
  }

  /** No served response carries an unnamed call. */
  lemma CompleteNamesCalls(cfg: Config, st: State, final: bool)
    ensures var c := Complete(cfg, st, final);
            c.Completed? ==> forall t | t in c.resp.toolCalls :: t.id != ""
  {
    var req := Request(Wire(st.messages, cfg.accepts), final);
    var (reply, w) := Ask(st.world, req);
    if reply.Answer? {
      FilledIdsAreSet(st.run, st.iterations + 1, req.messages, reply.resp.toolCalls);
    }
  }

  lemma RecoveredCallsAreNamed(cfg: Config, st: State, final: bool)
    ensures var c := CompleteRecovering(cfg, st, final);
            c.Completed? ==> forall t | t in c.resp.toolCalls :: t.id != ""
  {
    hide Complete, Compact;
    CompleteNamesCalls(cfg, st, final);
    var c := Complete(cfg, st, final);
    if c.Faulted? {
      RetryNamesCalls(cfg, c.st, final);
    }
  }

  lemma RetryNamesCalls(cfg: Config, st: State, final: bool)
    ensures var c := Recover(cfg, st, final);
            c.Completed? ==> forall t | t in c.resp.toolCalls :: t.id != ""
  {
    hide Complete, Compact, RetryState;
    var (out, st1) := Compact(cfg, st);
    CompleteNamesCalls(cfg, RetryState(cfg, st, st1, out), final);
  }

  lemma ServedCallsAreNamed(cfg: Config, st: State, final: bool)
    ensures var c := CompleteOnce(cfg, st, final);
            c.Completed? ==> forall t | t in c.resp.toolCalls :: t.id != ""
  {
    hide CompleteRecovering, Stitch;
    RecoveredCallsAreNamed(cfg, st, final);
    var c := CompleteRecovering(cfg, st, final);
    if c.Completed? {
      RecoveredCallsAreNamed(cfg, Append(Append(c.st, c.resp.Turn()), TextMessage(User, cfg.prompts.continueText)),
                             final);
    }
  }
}
