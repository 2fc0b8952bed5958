/** Where a run stops (agent/runner.go:366-519, 626-712): the iteration cap, the nudges, the reserved last turn, and
    what each truncation reason says about the outcome. */
module LoopLimits {

  import opened Chat
  import opened Summaries
  import opened Triggers
  import opened CallIds
  import opened Record
  import opened Worlds
  import opened Loop
  import opened LoopTurns
  import opened LoopLedger

  // ----- What a completion writes -----

  /** A tool-less turn's events ask with `final` set, any other turn's without; compaction's own calls aside. */
  predicate Asks(ev: Event, final: bool) {
    !ev.ToolRun? && !ev.Steered? && (ev.Completion? && !ev.purpose ==> ev.req.final == final)
  }

  ghost predicate Wrote(a: seq<Event>, b: seq<Event>, final: bool) {
    a <= b && forall k :: |a| <= k < |b| ==> Asks(b[k], final)
  }

  /** The bookkeeping of the stops is not touched. */
  predicate SameStops(a: State, b: State) {
    a.nudges == b.nudges && a.finalized == b.finalized && a.truncation == b.truncation
  }

  /** From a to b, at most `served` completions were served. */
  ghost predicate Asked(a: State, b: State, final: bool, served: nat) {
    Wrote(a.log, b.log, final) && SameStops(a, b) && a.iterations <= b.iterations <= a.iterations + served
  }

  lemma AskedThen(a: State, b: State, c: State, final: bool, m: nat, n: nat)
    requires Asked(a, b, final, m) && Asked(b, c, final, n)
    ensures Asked(a, c, final, m + n)
  {
    hide Asks;
    forall k | |a.log| <= k < |c.log| ensures Asks(c.log[k], final) {
      if k < |b.log| {
        assert c.log[k] == b.log[k];
      }
    }
  }

  lemma CompactAsks(cfg: Config, st: State, final: bool)
    ensures Asked(st, Compact(cfg, st).1, final, 0) && Compact(cfg, st).1.messages == st.messages
  {
    hide RunCompactor, Spend, Charged;
  }

  lemma MaybeCompactAsks(cfg: Config, st: State, final: bool)
    ensures Asked(st, MaybeCompact(cfg, st).st, final, 0)
  {
    hide Compact, EstimateTokens, Spend, Wire, Triggers.Rearm;
    CompactAsks(cfg, st, final);
  }

  lemma CompleteAsks(cfg: Config, st: State, final: bool)
    ensures var c := Complete(cfg, st, final);
            && Asked(st, c.st, final, 1) && (c.Faulted? ==> c.st.iterations == st.iterations)
            && (c.Completed? ==> c.st.lastStop == c.resp.stop && c.st.finalText == c.resp.text)
  {
    hide Ask, Wire, Filled, Charged, Usage.Add;
  }

  lemma RecoverAsks(cfg: Config, st: State, final: bool)
    ensures var c := Recover(cfg, st, final);
            Asked(st, c.st, final, 1) && (c.Completed? ==>
                                          c.st.lastStop == c.resp.stop && c.st.finalText == c.resp.text)
  {
    hide Compact, Complete, Wire, EstimateTokens, Spend, Triggers.Refusal, Asked;
    var (out, st1) := Compact(cfg, st);
    CompactAsks(cfg, st, final);
    var st2 := RetryState(cfg, st, st1, out);
    RetryAsks(cfg, st, st1, out, final);
    CompleteAsks(cfg, st2, final);
    AskedThen(st, st1, st2, final, 0, 0);
    AskedThen(st, st2, Complete(cfg, st2, final).st, final, 0, 1);
    AskedMore(st, st1, final);
  }

  lemma AskedMore(a: State, b: State, final: bool)
    requires Asked(a, b, final, 0)
    ensures Asked(a, b, final, 1)
  {
  }

  lemma RetryAsks(cfg: Config, st: State, st1: State, out: CompactOut, final: bool)
    requires Asked(st, st1, final, 0)
    ensures Asked(st1, RetryState(cfg, st, st1, out), final, 0)
  {
    hide Wire, EstimateTokens, Spend, Triggers.Refusal;
  }

  lemma RecoveringAsks(cfg: Config, st: State, final: bool)
    ensures var c := CompleteRecovering(cfg, st, final);
            Asked(st, c.st, final, 1) && (c.Completed? ==>
                                          c.st.lastStop == c.resp.stop && c.st.finalText == c.resp.text)
  {
    hide Complete, Recover;
    CompleteAsks(cfg, st, final);
    var c := Complete(cfg, st, final);
    RecoverAsks(cfg, c.st, final);
    if c.Faulted? {
      AskedNothing(st, c.st, final);
      AskedThen(st, c.st, Recover(cfg, c.st, final).st, final, 0, 1);
    }
  }

  lemma AskedNothing(a: State, b: State, final: bool)
    requires Asked(a, b, final, 1) && a.iterations == b.iterations
    ensures Asked(a, b, final, 0)
  {
  }

  lemma AppendAsks(st: State, m: Message, final: bool)
    ensures Asked(st, Append(st, m), final, 0)
  {
  }

  /** One turn's completion: at most two are served, and the outcome's last stop and text are the answer's. */
  lemma CompleteOnceAsks(cfg: Config, st: State, final: bool)
    ensures var c := CompleteOnce(cfg, st, final);
            Asked(st, c.st, final, 2) && (c.Completed? ==>
                                          c.st.lastStop == c.resp.stop && c.st.finalText == c.resp.text)
  {
    hide CompleteRecovering, Stitch, Asked;
    RecoveringAsks(cfg, st, final);
    var c := CompleteRecovering(cfg, st, final);
    AskedUpTo(st, c.st, final);
    if c.Completed? {
      var st1 := Append(c.st, c.resp.Turn());
      var st2 := Append(st1, TextMessage(User, cfg.prompts.continueText));
      AppendAsks(c.st, c.resp.Turn(), final);
      AskedThen(st, c.st, st1, final, 1, 0);
      AskedUpTo(st, st1, final);
      AppendAsks(st1, TextMessage(User, cfg.prompts.continueText), final);
      AskedThen(st, st1, st2, final, 1, 0);
      RecoveringAsks(cfg, st2, final);
      var d := CompleteRecovering(cfg, st2, final);
      AskedThen(st, st2, d.st, final, 1, 1);
      if d.Completed? {
        var st3 := Append(d.st, d.resp.Turn());
        AppendAsks(d.st, d.resp.Turn(), final);
        AskedThen(st, d.st, st3, final, 2, 0);
        AskedText(st, st3, Stitched(c.resp, d.resp).text, final);
      }
    }
  }

  lemma AskedUpTo(a: State, b: State, final: bool)
    requires Asked(a, b, final, 1)
    ensures Asked(a, b, final, 2)
  {
  }

  lemma AskedText(a: State, b: State, text: string, final: bool)
    requires Asked(a, b, final, 2)
    ensures Asked(a, b.(finalText := text), final, 2)
  {
  }

  // ----- What a turn keeps -----

  predicate NoFinal(log: seq<Event>) {
    forall k :: 0 <= k < |log| && log[k].Completion? && !log[k].purpose ==> !log[k].req.final
  }

  /** Tool-less requests come last: behind the first of them there is no other request, tool run or steer. */
  ghost predicate FinalLast(log: seq<Event>) {
    exists n: nat :: n <= |log| && NoFinal(log[..n]) && Wrote(log[..n], log, true)
  }

  /** At the top of the loop. */
  ghost predicate AtTop(cfg: Config, st: State) {
    && NoFinal(st.log) && Balanced(st) && !st.finalized && st.truncation.NotTruncated? &&
       st.nudges <= MAX_EMPTY_TURN_NUDGES
    && (cfg.maxIterations >= 0 ==> st.iterations <= cfg.maxIterations + 1)
  }

  /** A state in which the run has to stop, for the reason. */
  predicate MustStop(cfg: Config, at: State, reason: Truncation) {
    match reason
    case MaxIterations => 0 <= cfg.maxIterations <= at.iterations
    case TokenBudget => OverBudget(cfg, LogSpend(at.log).Add(Seed(at.world)))
    case BudgetPool => PoolExhausted(at.world).0
    case _ => false
  }

  /** The run from `from` had to stop in one of the states it decides in, and from there on asked only tool-less. */
  ghost predicate StoppedFor(cfg: Config, from: State, last: State, reason: Truncation) {
    exists k: nat, at: State ::
      Decides(cfg, from, k, at) && MustStop(cfg, at, reason) && Wrote(at.log, last.log, true)
  }

  /** What the truncation reason of a run that ended says. */
  ghost predicate OutcomeMeans(cfg: Config, from: State, st: State) {
    match st.truncation
    case NotTruncated =>
      && cfg.strip(st.finalText) != ""
      && !st.lastStop.MaxTokens? && !st.lastStop.StopError? && !st.lastStop.Refusal? && !st.lastStop.ContentFilter?
    case OutputCap => st.lastStop.MaxTokens?
    case NoAnswer => st.nudges == MAX_EMPTY_TURN_NUDGES && cfg.strip(st.finalText) == ""
    case reason => StoppedFor(cfg, from, st, reason)
  }

  /** When the loop is left. */
  ghost predicate Left(cfg: Config, st: State) {
    && FinalLast(st.log) && st.nudges <= MAX_EMPTY_TURN_NUDGES
    && (cfg.maxIterations >= 0 ==> st.iterations <= cfg.maxIterations + 3)
    && (cfg.finalizePrompt == "" ==> NoFinal(st.log))
  }

  ghost predicate TurnKeeps(cfg: Config, from: State, t: Turned) {
    match t
    case Again(st) => AtTop(cfg, st)
    case Ended(st) => Left(cfg, st) && OutcomeMeans(cfg, from, st)
    case Broke(_, st) => Left(cfg, st)
  }

  lemma TopMayLeave(cfg: Config, st: State)
    requires AtTop(cfg, st)
    ensures Left(cfg, st)
  {
    assert st.log[..|st.log|] == st.log;
    assert Wrote(st.log[..|st.log|], st.log, true);
  }

  lemma WroteNoFinal(a: seq<Event>, b: seq<Event>)
    requires NoFinal(a) && Wrote(a, b, false)
    ensures NoFinal(b)
  {
    forall k | 0 <= k < |b| && b[k].Completion? && !b[k].purpose ensures !b[k].req.final {
      if k < |a| {
        assert b[k] == a[k];
      } else {
        assert Asks(b[k], false);
      }
    }
  }

  lemma FinalTurnAsks(cfg: Config, st: State, reason: Truncation)
    ensures var c := FinalTurn(cfg, st, reason);
            && Wrote(st.log, c.st.log, true) && st.iterations <= c.st.iterations <= st.iterations + 2 &&
               c.st.nudges == st.nudges
  {
    hide MaybeCompact, CompleteOnce, Asked;
    var st1 := Append(st, TextMessage(User, cfg.finalizePrompt))
                 .(finalized := true, triggers := st.triggers.(stubOnly := reason.TokenBudget? || reason.BudgetPool?));
    MaybeCompactAsks(cfg, st1, true);
    var m := MaybeCompact(cfg, st1);
    CompleteOnceAsks(cfg, m.st, true);
    AskedThen(st1, m.st, CompleteOnce(cfg, m.st, true).st, true, 0, 2);
    AskedMeans(st1, m.st, true, 0);
    AskedMeans(st1, CompleteOnce(cfg, m.st, true).st, true, 2);
  }

  lemma AskedMeans(a: State, b: State, final: bool, served: nat)
    requires Asked(a, b, final, served)
    ensures Wrote(a.log, b.log, final) && SameStops(a, b) && a.iterations <= b.iterations <= a.iterations + served
  {
  }

  /** A stop within the bound of the loop. */
  lemma StopKeeps(cfg: Config, from: State, k: nat, at: State, st: State, reason: Truncation)
    requires AtTop(cfg, st) && st.log == at.log && Decides(cfg, from, k, at) && MustStop(cfg, at, reason)
    ensures TurnKeeps(cfg, from, Stop(cfg, st, reason))
  {
    hide FinalTurn, Wrote, NoFinal, LogSpend, Decides, MustStop;
    TopMayLeave(cfg, st);
    FinalTurnAsks(cfg, st, reason);
    OnlyStops(cfg, at, reason);
    NothingWritten(st.log);
    if cfg.finalizePrompt != "" {
      FinalComesLast(st.log, FinalTurn(cfg, st, reason).st.log);
    }
  }

  lemma OnlyStops(cfg: Config, at: State, reason: Truncation)
    requires MustStop(cfg, at, reason)
    ensures !reason.NotTruncated? && !reason.OutputCap? && !reason.NoAnswer?
  {
  }

  lemma NothingWritten(log: seq<Event>)
    ensures Wrote(log, log, true)
  {
  }

  lemma FinalComesLast(a: seq<Event>, b: seq<Event>)
    requires NoFinal(a) && Wrote(a, b, true)
    ensures FinalLast(b)
  {
    assert b[..|a|] == a;
  }

  lemma {:induction false} DeliverKeeps(st: State, turns: seq<seq<Block>>)
    requires NoFinal(st.log)
    ensures var r := Deliver(st, turns);
            NoFinal(r.log) && SameStops(st, r) && r.lastStop == st.lastStop && r.finalText == st.finalText &&
              r.iterations == st.iterations
  {
    if turns != [] {
      DeliverKeeps(st, turns[..|turns| - 1]);
    }
  }

  lemma DrainKeeps(cfg: Config, st: State)
    requires AtTop(cfg, st)
    ensures AtTop(cfg, DrainInto(st).1)
    ensures DrainInto(st).1.lastStop == st.lastStop && DrainInto(st).1.finalText == st.finalText &&
            DrainInto(st).1.iterations == st.iterations
  {
    hide Deliver, NoFinal, LogSpend;
    var (turns, w) := Drain(st.world);
    DeliverKeeps(st.(world := w), turns);
    DeliverBalanced(st.(world := w), turns);
  }

  lemma {:induction false} ResultsKeep(st: State, calls: seq<ToolCall>, results: seq<ToolRes>)
    requires NoFinal(st.log) && |results| <= |calls|
    ensures var r := Results(st, calls, results); NoFinal(r.log) && SameStops(st, r) && r.iterations == st.iterations
  {
    hide RecordOf, ResMessage;
    if results != [] {
      ResultsKeep(st, calls, results[..|results| - 1]);
    }
  }

  lemma ToolPhaseKeeps(cfg: Config, from: State, k: nat, st: State, calls: seq<ToolCall>)
    requires AtTop(cfg, st) && forall c | c in calls :: c.id != ""
    requires var a := ToolCheck(cfg, st, calls); !Cancelled(a.world).0 ==> Decides(cfg, from, k, a)
    ensures TurnKeeps(cfg, from, ToolPhase(cfg, st, calls))
  {
    hide ExecuteTools, Results, Stop, NoFinal, Cancelled, Left, LogSpend, Decides;
    var (results, w) := ExecuteTools(st.world, calls, cfg.parallel, cfg.accepts, cfg.outputMax);
    ResultsKeep(st.(world := w), calls, results);
    ResultsBalanced(st.(world := w), calls, results);
    var st1 := Results(st.(world := w), calls, results);
    var st2 := st1.(world := Cancelled(st1.world).1);
    TopMayLeave(cfg, st2);
    CancelKeepsSeed(st1.world);
    if !Cancelled(st1.world).0 && OverBudget(cfg, Budgeted(st2)) {
      StopKeeps(cfg, from, k, st1, st2, TokenBudget);
    }
  }

  lemma CancelKeepsSeed(w: World)
    ensures Seed(Cancelled(w).1) == Seed(w)
  {
  }

  lemma NoCallsKeeps(cfg: Config, from: State, st: State, resp: Response)
    requires AtTop(cfg, st) && st.lastStop == resp.stop && st.finalText == resp.text
    ensures TurnKeeps(cfg, from, NoCalls(cfg, st, resp))
  {
    hide DrainInto, NoFinal, FinalLast, LogSpend, StoppedFor;
    TopMayLeave(cfg, st);
    DrainKeeps(cfg, st);
    TopMayLeave(cfg, DrainInto(st).1);
  }

  lemma BodyKeeps(cfg: Config, st: State)
    requires AtTop(cfg, st) && (cfg.maxIterations >= 0 ==> st.iterations < cfg.maxIterations)
    requires !OverBudget(cfg, Budgeted(st)) && !PoolExhausted(st.world).0 && !Cancelled(PoolExhausted(st.world).1).0
    ensures TurnKeeps(cfg, st, Body(cfg, st.(world := Cancelled(PoolExhausted(st.world).1).1)))
  {
    hide DrainInto, MaybeCompact, CompleteOnce, NoCalls, ToolPhase, ToolCheck, NoFinal, Wrote, Left, LogSpend,
         Cancelled, PoolExhausted, OutcomeMeans;
    var st0 := st.(world := Cancelled(PoolExhausted(st.world).1).1);
    DrainKeeps(cfg, st0);
    var st1 := DrainInto(st0).1;
    MaybeCompactAsks(cfg, st1, false);
    MaybeCompactBalanced(cfg, st1);
    var m := MaybeCompact(cfg, st1);
    StaysAtTop(cfg, st1, m.st, 0);
    TopMayLeave(cfg, m.st);
    CompleteOnceAsks(cfg, m.st, false);
    CompleteOnceBalanced(cfg, m.st, false);
    var c := CompleteOnce(cfg, m.st, false);
    StaysAtTop(cfg, m.st, c.st, 2);
    TopMayLeave(cfg, c.st);
    if m.Kept? && c.Completed? {
      if c.resp.toolCalls == [] {
        NoCallsKeeps(cfg, st, c.st, c.resp);
      } else {
        ServedCallsAreNamed(cfg, m.st, false);
        FirstDecides(cfg, st);
        ToolPhaseKeeps(cfg, st, 0, c.st, c.resp.toolCalls);
      }
    }
  }

  lemma FirstDecides(cfg: Config, st: State)
    ensures Decides(cfg, st, 0, st)
    ensures TurnCheck(cfg, st).Some? ==> Decides(cfg, st, 0, TurnCheck(cfg, st).value)
  {
    hide TurnCheck;
  }

  lemma StaysAtTop(cfg: Config, a: State, b: State, served: nat)
    requires AtTop(cfg, a) && Asked(a, b, false, served) &&
             (cfg.maxIterations >= 0 ==> a.iterations + served <= cfg.maxIterations + 1)
    requires Balanced(b)
    ensures AtTop(cfg, b)
  {
    hide LogSpend;
    WroteNoFinal(a.log, b.log);
  }

  lemma TurnStaysBounded(cfg: Config, st: State)
    requires AtTop(cfg, st)
    ensures TurnKeeps(cfg, st, Turn(cfg, st))
  {
    hide Body, Stop, PoolExhausted, Cancelled, NoFinal, Left, LogSpend, Decides, TurnCheck;
    var w := PoolExhausted(st.world).1;
    var w1 := Cancelled(w).1;
    TopMayLeave(cfg, st.(world := w1));
    FirstDecides(cfg, st);
    if cfg.maxIterations >= 0 && st.iterations >= cfg.maxIterations {
      StopKeeps(cfg, st, 0, st, st, MaxIterations);
    } else if OverBudget(cfg, Budgeted(st)) {
      StopKeeps(cfg, st, 0, st, st, TokenBudget);
    } else if PoolExhausted(st.world).0 {
      StopKeeps(cfg, st, 0, st, st.(world := w), BudgetPool);
    } else if !Cancelled(w).0 {
      BodyKeeps(cfg, st);
    }
  }

  /** A reason found in a later turn is a reason of the run. */
  lemma OutcomeOn(cfg: Config, from: State, last: State)
    requires Turn(cfg, from).Again? && OutcomeMeans(cfg, Turn(cfg, from).st, last)
    ensures OutcomeMeans(cfg, from, last)
  {
    hide Turn, Wrote, Decides, MustStop;
    var next := Turn(cfg, from).st;
    if StoppedFor(cfg, next, last, last.truncation) {
      var k: nat, at :| Decides(cfg, next, k, at) && MustStop(cfg, at, last.truncation) &&
        Wrote(at.log, last.log, true);
      DecidesOn(cfg, from, k, at);
    }
  }

  lemma {:induction false} RunStaysBounded(cfg: Config, st: State)
    requires AtTop(cfg, st)
    ensures Left(cfg, Run(cfg, st).st) && (Run(cfg, st).fault.None? ==> OutcomeMeans(cfg, st, Run(cfg, st).st))
    decreases Remaining(st.world)
  {
    hide Turn, Left, OutcomeMeans, AtTop;
    TurnStaysBounded(cfg, st);
    var t := Turn(cfg, st);
    if t.Again? {
      RunStaysBounded(cfg, t.st);
      if Run(cfg, st).fault.None? {
        OutcomeOn(cfg, st, Run(cfg, st).st);
      }
    }
  }

  /** In every run: a cap of N iterations serves at most N+3 completions (the reserved turn and two continuations
      included); at most two nudges; tool-less requests come last and only with a finalize prompt; and a run that ends
      without fault says truthfully why. Untruncated means a visible answer that was not cut off or refused. A cap, a
      budget or the pool means that the run found it reached, at the top of a turn or behind a turn's tools, and asked
      only tool-less after that: the iterations, the chargeable tokens of the record up to there and the budget seed,
      or the pool's own answer. */
  lemma StopsMeanWhatTheySay(cfg: Config, id: string, seed: seq<Message>, first: Message, offered: seq<string>,
                             w: World)
    ensures var st := Begin(cfg, id, seed, first, offered, w);
            var run := Run(cfg, st);
            && (cfg.maxIterations >= 0 ==> run.st.iterations <= cfg.maxIterations + 3)
            && run.st.nudges <= MAX_EMPTY_TURN_NUDGES
            && FinalLast(run.st.log) && (cfg.finalizePrompt == "" ==> NoFinal(run.st.log))
            && (run.fault.None? ==> OutcomeMeans(cfg, st, run.st))
  {
    hide Run, FinalLast, OutcomeMeans, AtTop, Begin;
    FreshIsAtTop(cfg, id, seed, first, offered, w);
    RunStaysBounded(cfg, Begin(cfg, id, seed, first, offered, w));
  }

  lemma FreshIsAtTop(cfg: Config, id: string, seed: seq<Message>, first: Message, offered: seq<string>, w: World)
    ensures AtTop(cfg, Begin(cfg, id, seed, first, offered, w))
  {
    hide LogSpend;
    StartIsFree(offered);
  }
}
