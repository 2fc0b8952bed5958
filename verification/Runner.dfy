/** The run as the object it is: the conversation, the outcome and the compaction triggers are fields that the turns
    of one loop update (agent/runner.go:331-519, 641-1061; agent/dispatch.go:521-580). */
module Runner {

  import opened Decimal
  import opened Chat
  import opened Summaries
  import opened Triggers
  import opened CallIds
  import opened Record
  import opened Worlds
  import opened Loop

  /** What a completion gives its caller. */
  datatype Answered = Got(resp: Response) | Bad(fault: Fault)

  function Gave(g: Answered, st: State): Completed {
    match g case Got(resp) => Completed(resp, st) case Bad(fault) => Faulted(fault, st)
  }

  /** How a turn ends. */
  datatype Flow = GoOn | Done | Fail(fault: Fault)

  function Flowed(f: Flow, st: State): Turned {
    match f case GoOn => Again(st) case Done => Ended(st) case Fail(fault) => Broke(fault, st)
  }

  // ----- One turn's tool calls -----

  /** `authorizeCalls`: all of them, in call order, before the first one runs. */
  method AuthorizeAll(w: World, calls: seq<ToolCall>) returns (ds: seq<Decision>, w': World)
    ensures (ds, w') == AuthorizeCalls(w, calls)
  {
    hide Authorize, Registered;
    ds, w' := [], w;
    assert calls[..0] == [];
    for i := 0 to |calls|
      invariant (ds, w') == AuthorizeCalls(w, calls[..i])
    {
      assert calls[..i + 1][..i] == calls[..i];
      if !Registered(w', calls[i].name) {
        ds := ds + [Go(calls[i].args, false)];
      } else {
        var (d, next) := Authorize(w', calls[i]);
        ds, w' := ds + [d], next;
      }
    }
    assert calls[..|calls|] == calls;
  }

  method ExecuteInOrder(w: World, calls: seq<ToolCall>, ds: seq<Decision>, accepts: bool, max: int)
    returns (results: seq<ToolRes>, stopped: bool, w': World)
    requires |calls| == |ds| && forall c | c in calls :: c.id != ""
    ensures (results, stopped, w') == Sequential(w, calls, ds, accepts, max, |calls|)
  {
    hide RunCall, Cancelled;
    results, stopped, w' := [], false, w;
    for i := 0 to |calls|
      invariant (results, stopped, w') == Sequential(w, calls, ds, accepts, max, i)
    {
      if stopped {
        continue;
      }
      if ds[i].Resolved? {
        results := results + [ds[i].res];
        continue;
      }
      var (done, w1) := Cancelled(w');
      w' := w1;
      if done {
        stopped := true;
        continue;
      }
      var (res, w2) := RunCall(w', calls[i], ds[i], accepts, max);
      results, w' := results + [res], w2;
    }
  }

  /** Each call writes its own slot, in whatever order the goroutines get there. */
  method ExecuteParallel(w: World, calls: seq<ToolCall>, ds: seq<Decision>, accepts: bool, max: int, order: seq<nat>)
    returns (results: seq<ToolRes>, w': World)
    requires |calls| == |ds| && (forall c | c in calls :: c.id != "") &&
             (forall k :: 0 <= k < |order| ==> order[k] < |calls|)
    ensures (results, w') == Parallel(w, calls, ds, accepts, max, order)
  {
    hide RunCall;
    results, w' := seq(|calls|, _ => NO_RESULT), w;
    assert order[..0] == [];
    for k := 0 to |order|
      invariant (results, w') == Parallel(w, calls, ds, accepts, max, order[..k])
    {
      assert order[..k + 1][..k] == order[..k];
      var i := order[k];
      if ds[i].Resolved? {
        results := results[i := ds[i].res];
      } else {
        var (res, next) := RunCall(w', calls[i], ds[i], accepts, max);
        results, w' := results[i := res], next;
      }
    }
    assert order[..|order|] == order;
  }

  /** `executeTools`. */
  method Execute(w: World, calls: seq<ToolCall>, parallel: bool, accepts: bool,
                 max: int) returns (results: seq<ToolRes>, w': World)
    requires forall c | c in calls :: c.id != ""
    ensures (results, w') == ExecuteTools(w, calls, parallel, accepts, max)
  {
    hide AuthorizeCalls, Sequential, Parallel, NextOrder;
    var ds, w1 := AuthorizeAll(w, calls);
    if !parallel || |calls| < 2 {
      var stopped;
      results, stopped, w' := ExecuteInOrder(w1, calls, ds, accepts, max);
    } else {
      var (order, w2) := NextOrder(w1, |calls|);
      results, w' := ExecuteParallel(w2, calls, ds, accepts, max, order);
    }
  }

  class AgentRun {
    const cfg: Config
    const run: string
    var messages: seq<Message>
    var iterations: nat
    var usage: Usage
    var charged: int
    var lastStop: StopReason
    var finalText: string
    var finalized: bool
    var truncation: Truncation
    var nudges: nat
    var triggers: Triggers
    ghost var passes: seq<Pass>
    var log: seq<Event>
    var world: World

    ghost function View(): State
      reads this
    {
      State(run, messages, iterations, usage, charged, lastStop, finalText, finalized, truncation, nudges,
            triggers, passes, log, world)
    }

    constructor (cfg: Config, st: State)
      ensures this.cfg == cfg && View() == st
    {
      this.cfg := cfg;
      run, passes := st.run, st.passes;
      messages, iterations, usage, charged := st.messages, st.iterations, st.usage, st.charged;
      lastStop, finalText, finalized, truncation := st.lastStop, st.finalText, st.finalized, st.truncation;
      nudges, triggers, log, world := st.nudges, st.triggers, st.log, st.world;
    }

    // ----- One completion -----

    method Charge(u: Usage)
      modifies this`usage, this`charged
      ensures usage == old(usage).Add(u) && charged == Charged(cfg, old(charged), u)
    {
      usage := usage.Add(u);
      var c := cfg.charge(u);
      if c > 0 {
        charged := charged + c;
      }
    }

    /** `complete`. */
    method CompleteRequest(final: bool) returns (g: Answered)
      modifies this`world, this`log, this`iterations, this`usage, this`charged, this`lastStop, this`finalText
      ensures Gave(g, View()) == Complete(cfg, old(View()), final)
    {
      hide Fold, Ask, Wire, Filled;
      var sent, _ := WireMessages(messages, cfg.accepts);
      var req := Request(sent, final);
      var step := iterations + 1;
      var (reply, w) := Ask(world, req);
      world := w;
      if !reply.Answer? {
        log := log + [Completion(step, req, reply, false)];
        return Bad(if reply.Overflow? then ContextTooLong else CompletionFailed);
      }
      var calls := FillEmptyCallIds(run, step, sent, reply.resp.toolCalls);
      var resp := reply.resp.(toolCalls := calls);
      log := log + [Completion(step, req, Answer(resp), false)];
      FoldIn(resp);
      return Got(resp);
    }

    method FoldIn(resp: Response)
      modifies this`iterations, this`usage, this`charged, this`lastStop, this`finalText
      ensures View() == Fold(cfg, old(View()), resp)
    {
      hide Usage.Add, Charged;
      iterations := iterations + 1;
      Charge(resp.usage);
      lastStop, finalText := resp.stop, resp.text;
    }

    // ----- Compaction -----

    /** Run the compactor, record its calls and charge them. */
    method CompactNow() returns (out: CompactOut)
      modifies this`world, this`log, this`usage, this`charged
      ensures (out, View()) == Compact(cfg, old(View()))
    {
      hide Usage.Add, Charged, RunCompactor, Spend;
      var (o, w) := RunCompactor(cfg, world, messages, triggers.stubOnly);
      out, world := o, w;
      log := log + PurposeEvents(iterations + 1, out.calls);
      Charge(out.Usage());
    }

    method Estimate(msgs: seq<Message>) returns (n: nat)
      ensures n == EstimateTokens(Wire(msgs, cfg.accepts))
    {
      var sent, _ := WireMessages(msgs, cfg.accepts);
      n := EstimateTokens(sent);
    }

    /** `maybeCompact`. */
    method MaybeCompactNow() returns (ok: bool)
      modifies this`world, this`log, this`usage, this`charged, this`messages, this`triggers, this`passes
      ensures var r := MaybeCompact(cfg, old(View())); r.st == View() && (ok <==> r.Kept?)
    {
      hide Compact, Applied, EstimateTokens, Wire, Spend, Triggers.Rearm, Triggers.Due;
      if triggers.budget <= 0 && !triggers.proactive {
        return true;
      }
      var before := Estimate(messages);
      if !triggers.Due(before) {
        return true;
      }
      var out := CompactNow();
      if !out.ok {
        return false;
      }
      var after := ApplyPass(out, before);
      var paid := out.Usage() != ZERO_USAGE;
      passes := passes + [AtBoundary(before, after, paid)];
      if after == before && !paid {
        return true;
      }
      triggers := triggers.Rearm(triggers.DueByBudget(before), after, paid);
      return true;
    }

    /** A pass that shrank the history is applied and recorded. */
    method ApplyPass(out: CompactOut, before: nat) returns (after: nat)
      modifies this`messages, this`log
      ensures View() == Applied(cfg, old(View()), out, before)
      ensures after == EstimateTokens(Wire(messages, cfg.accepts))
    {
      hide EstimateTokens, Wire;
      after := Estimate(out.messages);
      if out.messages != messages && after < before {
        messages := out.messages;
        log := log + [Compacted(iterations + 1, before, after, false)];
      } else {
        after := Estimate(messages);
      }
    }

    /** `completeRecovering`: one compaction and one retry when the request is too long. */
    method CompleteWithRecovery(final: bool) returns (g: Answered)
      modifies this
      ensures Gave(g, View()) == CompleteRecovering(cfg, old(View()), final)
    {
      hide Complete, Recover;
      g := CompleteRequest(final);
      if g == Bad(ContextTooLong) && CompactionEnabled(cfg) {
        g := CompactAndRetry(final);
      }
    }

    method CompactAndRetry(final: bool) returns (g: Answered)
      modifies this
      ensures Gave(g, View()) == Recover(cfg, old(View()), final)
    {
      hide Complete, Compact, RetryState, EstimateTokens, Wire, Spend;
      ghost var st := View();
      var out := CompactNow();
      ghost var st1 := View();
      if !out.ok {
        return Bad(CompactionFailed);
      }
      MessagesUntouched(cfg, st);
      var was, _ := WireMessages(messages, cfg.accepts);
      var now, _ := WireMessages(out.messages, cfg.accepts);
      if out.messages == messages || now == was {
        return Bad(ContextTooLong);
      }
      EnterRetry(out, was, now, st);
      g := CompleteRequest(final);
    }

    lemma MessagesUntouched(cfg: Config, st: State)
      ensures var st1 := Compact(cfg, st).1;
              st1.messages == st.messages && st1.iterations == st.iterations && st1.triggers == st.triggers
    {
      hide RunCompactor, Spend;
    }

    method EnterRetry(out: CompactOut, was: seq<Message>, now: seq<Message>, ghost st: State)
      requires was == Wire(messages, cfg.accepts) && now == Wire(out.messages, cfg.accepts)
      requires st.messages == messages && st.iterations == iterations && st.triggers == triggers
      modifies this`log, this`triggers, this`messages, this`passes
      ensures View() == RetryState(cfg, st, old(View()), out)
    {
      hide EstimateTokens, Wire, Spend, Triggers.Refusal;
      log := log + [Compacted(iterations + 1, EstimateTokens(messages), EstimateTokens(out.messages), true)];
      var paid := out.Usage() != ZERO_USAGE;
      triggers := triggers.Refusal(EstimateTokens(was), EstimateTokens(now), paid);
      passes := passes + [Recovery(EstimateTokens(was), EstimateTokens(now), paid)];
      messages := out.messages;
    }

    method LongestOverlap(head: string, cont: string, most: nat) returns (n: nat)
      requires most <= |head| && most <= |cont|
      ensures n == Overlap(head, cont, most)
    {
      n := most;
      while n > 0
        invariant 0 <= n <= most && Overlap(head, cont, n) == Overlap(head, cont, most)
      {
        if head[|head| - n..] == cont[..n] {
          return;
        }
        n := n - 1;
      }
    }

    /** `stitchContinuation`: the longest overlap of the two texts is said once. */
    method StitchTexts(head: string, cont: string) returns (r: string)
      ensures r == Stitch(head, cont)
    {
      var n := |head|;
      if n > MAX_STITCH_OVERLAP {
        n := MAX_STITCH_OVERLAP;
      }
      if n > |cont| {
        n := |cont|;
      }
      n := LongestOverlap(head, cont, n);
      r := head + cont[n..];
    }

    /** `completeOnce`: an answer cut off at the output cap is continued once. */
    method CompleteTurn(final: bool) returns (g: Answered)
      modifies this
      ensures Gave(g, View()) == CompleteOnce(cfg, old(View()), final)
    {
      hide CompleteRecovering, Stitch;
      g := CompleteWithRecovery(final);
      if g.Bad? {
        return;
      }
      var head := g.resp;
      messages := messages + [head.Turn()];
      if !head.stop.MaxTokens? || head.toolCalls != [] {
        return;
      }
      messages := messages + [TextMessage(User, cfg.prompts.continueText)];
      g := CompleteWithRecovery(final);
      if g.Bad? {
        return;
      }
      messages := messages + [g.resp.Turn()];
      var text := StitchTexts(head.text, g.resp.text);
      g := Got(head.(text := text, toolCalls := g.resp.toolCalls, stop := g.resp.stop));
      finalText := text;
    }

    // ----- The turn -----

    /** Queued user turns are delivered in order. */
    method DrainQueue() returns (delivered: bool)
      modifies this`world, this`log, this`messages
      ensures (delivered, View()) == DrainInto(old(View()))
    {
      hide Drain, SteerMessage;
      var (turns, w) := Drain(world);
      world := w;
      ghost var st := View();
      assert turns[..0] == [];
      for i := 0 to |turns|
        invariant View() == Deliver(st, turns[..i])
      {
        assert turns[..i + 1][..i] == turns[..i];
        var m := SteerMessage(turns[i]);
        log := log + [Steered(iterations + 1, m)];
        messages := messages + [m];
      }
      assert turns[..|turns|] == turns;
      delivered := turns != [];
    }

    /** Results are recorded and appended in call order. */
    method RecordResults(calls: seq<ToolCall>, results: seq<ToolRes>)
      requires |results| <= |calls|
      modifies this`log, this`messages
      ensures View() == Results(old(View()), calls, results)
    {
      hide RecordOf, ResMessage;
      assert results[..0] == [];
      for i := 0 to |results|
        invariant View() == Results(old(View()), calls, results[..i])
      {
        assert results[..i + 1][..i] == results[..i];
        log := log + [ToolRun(iterations, RecordOf(calls[i], results[i]))];
        messages := messages + [ResMessage(results[i], calls[i].id)];
      }
      assert results[..|results|] == results;
    }

    method SeeCancelled() returns (done: bool)
      modifies this`world
      ensures (done, world) == Cancelled(old(world))
    {
      var (d, w) := Cancelled(world);
      done, world := d, w;
    }

    method RunTools(calls: seq<ToolCall>) returns (f: Flow)
      requires forall c | c in calls :: c.id != ""
      modifies this
      ensures Flowed(f, View()) == ToolPhase(cfg, old(View()), calls)
    {
      hide ExecuteTools, Results, Loop.Stop, Cancelled, OverBudget;
      var results, w := Execute(world, calls, cfg.parallel, cfg.accepts, cfg.outputMax);
      world := w;
      RecordResults(calls, results);
      var done := SeeCancelled();
      if done {
        return Fail(Canceled);
      }
      if OverBudget(cfg, usage.Add(Seed(world))) {
        f := StopAt(TokenBudget);
        return;
      }
      return GoOn;
    }

    method FinishOrNudge(resp: Response) returns (f: Flow)
      modifies this
      ensures Flowed(f, View()) == NoCalls(cfg, old(View()), resp)
    {
      hide DrainInto;
      if resp.stop.StopError? || resp.stop.Refusal? || resp.stop.ContentFilter? {
        return Fail(BadStop(resp.stop));
      }
      var delivered := DrainQueue();
      if delivered {
        return GoOn;
      }
      if resp.stop.MaxTokens? {
        truncation := OutputCap;
        return Done;
      }
      if cfg.strip(resp.text) == "" {
        if nudges >= MAX_EMPTY_TURN_NUDGES {
          truncation := NoAnswer;
          return Done;
        }
        nudges := nudges + 1;
        messages := messages + [TextMessage(User, cfg.prompts.emptyTurnNudge)];
        return GoOn;
      }
      return Done;
    }

    /** The stop, with its reserved tool-less turn when a finalize prompt is set. */
    method StopAt(reason: Truncation) returns (f: Flow)
      modifies this
      ensures Flowed(f, View()) == Loop.Stop(cfg, old(View()), reason)
    {
      hide MaybeCompact, CompleteOnce;
      if cfg.finalizePrompt != "" && !finalized {
        finalized := true;
        triggers := triggers.(stubOnly := reason.TokenBudget? || reason.BudgetPool?);
        messages := messages + [TextMessage(User, cfg.finalizePrompt)];
        var ok := MaybeCompactNow();
        if !ok {
          return Fail(CompactionFailed);
        }
        var g := CompleteTurn(true);
        if g.Bad? {
          return Fail(g.fault);
        }
      }
      truncation := reason;
      return Done;
    }

    method TakeTurn() returns (f: Flow)
      modifies this
      ensures Flowed(f, View()) == Turn(cfg, old(View()))
    {
      hide Body, Loop.Stop, PoolExhausted, Cancelled, OverBudget;
      if cfg.maxIterations >= 0 && iterations >= cfg.maxIterations {
        f := StopAt(MaxIterations);
        return;
      }
      if OverBudget(cfg, usage.Add(Seed(world))) {
        f := StopAt(TokenBudget);
        return;
      }
      var (exhausted, w) := PoolExhausted(world);
      world := w;
      if exhausted {
        f := StopAt(BudgetPool);
        return;
      }
      var done := SeeCancelled();
      if done {
        return Fail(Canceled);
      }
      f := TakeBody();
    }

    method TakeBody() returns (f: Flow)
      modifies this
      ensures Flowed(f, View()) == Body(cfg, old(View()))
    {
      hide DrainInto, MaybeCompact, CompleteOnce, NoCalls, ToolPhase;
      var _ := DrainQueue();
      var ok := MaybeCompactNow();
      if !ok {
        return Fail(CompactionFailed);
      }
      ghost var st := View();
      var g := CompleteTurn(false);
      if g.Bad? {
        return Fail(g.fault);
      }
      ServedCallsAreNamed(cfg, st, false);
      if g.resp.toolCalls == [] {
        f := FinishOrNudge(g.resp);
      } else {
        f := RunTools(g.resp.toolCalls);
      }
    }

    /** `run`: the loop ends, because every turn that goes on has used up an answer of the world. */
    method RunLoop() returns (fault: Option<Fault>)
      modifies this
      ensures Ending(fault, View()) == Run(cfg, old(View()))
    {
      hide Turn, Remaining;
      while true
        invariant Run(cfg, View()) == Run(cfg, old(View()))
        decreases Remaining(world)
      {
        var f := TakeTurn();
        if f.Done? {
          return None;
        }
        if f.Fail? {
          return Some(f.fault);
        }
      }
    }
  }
}
