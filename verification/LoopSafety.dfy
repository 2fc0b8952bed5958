/** Every request of every run is well formed: tool calls and tool results stay paired on every path of
    the loop, and a run leaves behind only histories the next run can continue from. */
module LoopSafety {

  import opened Chat
  import opened Pairing
  import opened Compaction
  import opened Summaries
  import opened Triggers
  import opened CallIds
  import opened Record
  import opened Worlds
  import opened Loop

  /** A completion of the run itself was asked with a well-formed history. */
  predicate GoodEvent(ev: Event) {
    ev.Completion? && !ev.purpose ==> Paired(ev.req.messages)
  }

  predicate GoodLog(log: seq<Event>) {
    forall i :: 0 <= i < |log| ==> GoodEvent(log[i])
  }

  /** The loop's invariant between completions. */
  predicate Sound(st: State) {
    Paired(st.messages) && GoodLog(st.log)
  }

  predicate Named(calls: seq<ToolCall>) {
    forall c | c in calls :: c.id != ""
  }

  /** Whole turns followed by an assistant turn whose calls are still to be answered. */
  predicate OpenTurn(msgs: seq<Message>, calls: seq<ToolCall>) {
    && msgs != []
    && Paired(msgs[..|msgs| - 1])
    && msgs[|msgs| - 1].role.Assistant?
    && msgs[|msgs| - 1].toolCalls == calls
    && Named(calls)
  }

  /** What a completion leaves: an open turn on success, a sound state on failure. */
  predicate CompletionSound(c: Completed) {
    && GoodLog(c.st.log)
    && (c.Completed? ==> OpenTurn(c.st.messages, c.resp.toolCalls))
    && (c.Faulted? ==> Paired(c.st.messages))
  }

  lemma EmitKeepsLog(log: seq<Event>, ev: Event)
    requires GoodLog(log) && GoodEvent(ev)
    ensures GoodLog(log + [ev])
  {
  }

  /** A request keeps the conversation, logs a well-formed request and names every call. */
  lemma CompleteIsSound(cfg: Config, st: State, final: bool)
    requires Sound(st)
    ensures var c := Complete(cfg, st, final);
            GoodLog(c.st.log) && c.st.messages == st.messages && (c.Completed? ==> Named(c.resp.toolCalls))
  {
    CompleteNamesCalls(cfg, st, final);
    WireKeepsPairing(st.messages, cfg.accepts);
    hide Paired, Filled, Ask, Charged;
    var req := Request(Wire(st.messages, cfg.accepts), final);
    assert Paired(req.messages);
  }

  lemma StubIsPaired(msgs: seq<Message>, accepts: bool)
    requires Paired(msgs)
    ensures Paired(StubHistory(msgs, accepts))
  {
    hide Paired, StubHistory;
    StubKeeps(msgs, accepts);
  }

  /** Whatever the compactor answers, the compacted history is well formed. */
  lemma RunCompactorKeepsPairing(cfg: Config, w: World, msgs: seq<Message>, stubOnly: bool)
    requires Paired(msgs)
    ensures Paired(RunCompactor(cfg, w, msgs, stubOnly).0.messages)
  {
    hide StubHistory, Summarized, Paired, AskSummary;
    StubIsPaired(msgs, cfg.accepts);
    hide SummaryCut;
    var cut := SummaryCut(cfg.prompts, msgs);
    if cut.Cut? {
      var (pass, _) := AskSummary(w, cfg.strip, cfg.partial, cfg.render(Wire(msgs, cfg.accepts)[cut.from..cut.at]));
      if pass.Some? && pass.value.result.SummaryText? {
        SummaryKeepsPairing(cfg.prompts, msgs, cfg.accepts, cut.from, cut.at, pass.value.result.text);
      }
    }
  }

  lemma CompactIsSound(cfg: Config, st: State)
    requires Sound(st)
    ensures var (out, st1) := Compact(cfg, st);
            Paired(out.messages) && Sound(st1) && st1.messages == st.messages
  {
    RunCompactorKeepsPairing(cfg, st.world, st.messages, st.triggers.stubOnly);
    hide RunCompactor, Paired, Spend, Charged;
  }

  lemma MaybeCompactIsSound(cfg: Config, st: State)
    requires Sound(st)
    ensures Sound(MaybeCompact(cfg, st).st)
  {
    hide Compact, Paired, EstimateTokens, Spend, GoodLog, Wire;
    CompactIsSound(cfg, st);
    var (out, st1) := Compact(cfg, st);
    var before := EstimateTokens(Wire(st.messages, cfg.accepts));
    var after := EstimateTokens(Wire(out.messages, cfg.accepts));
    EmitKeepsLog(st1.log, Compacted(st1.iterations + 1, before, after, false));
  }

  /** A boundary pass never leaves a larger request. */
  lemma MaybeCompactNeverGrows(cfg: Config, st: State)
    ensures EstimateTokens(Wire(MaybeCompact(cfg, st).st.messages, cfg.accepts)) <= EstimateTokens(Wire(st.messages,
        cfg.accepts))
  {
    hide RunCompactor, EstimateTokens, Spend, Charged;
  }

  /** Every turn boundary of the loop is one boundary pass of its triggers, whose cost is the estimate before it. */
  lemma BoundaryIsAPass(cfg: Config, st: State) returns (p: Pass)
    ensures p.AtBoundary? && p.before == EstimateTokens(Wire(st.messages, cfg.accepts))
    ensures p.after == EstimateTokens(Wire(MaybeCompact(cfg, st).st.messages, cfg.accepts)) <= p.before
    ensures MaybeCompact(cfg, st).Kept? ==> MaybeCompact(cfg, st).st.triggers == Apply(st.triggers, p)
  {
    hide Compact, EstimateTokens, Spend, Wire;
    CompactKeeps(cfg, st);
    var (out, st1) := Compact(cfg, st);
    var r := MaybeCompact(cfg, st);
    var before, after := EstimateTokens(Wire(st.messages, cfg.accepts)),
      EstimateTokens(Wire(r.st.messages, cfg.accepts));
    MaybeCompactNeverGrows(cfg, st);
    p := AtBoundary(before, after, st.triggers.Due(before) && out.Usage() != ZERO_USAGE);
  }

  lemma CompactKeeps(cfg: Config, st: State)
    ensures var st1 := Compact(cfg, st).1; st1.messages == st.messages && st1.triggers == st.triggers
  {
    hide RunCompactor, Spend, Charged;
  }

  lemma RecoverIsSound(cfg: Config, st: State, final: bool)
    requires Sound(st)
    ensures var c := Recover(cfg, st, final);
            GoodLog(c.st.log) && Paired(c.st.messages) && (c.Completed? ==> Named(c.resp.toolCalls))
  {
    CompactIsSound(cfg, st);
    hide Compact, Paired, Complete, RetryState;
    var (out, st1) := Compact(cfg, st);
    RetryIsSound(cfg, st, st1, out);
    CompleteIsSound(cfg, RetryState(cfg, st, st1, out), final);
  }

  lemma RetryIsSound(cfg: Config, st: State, st1: State, out: CompactOut)
    requires GoodLog(st1.log) && Paired(out.messages)
    ensures Sound(RetryState(cfg, st, st1, out)) && RetryState(cfg, st, st1, out).messages == out.messages
  {
    hide Paired, EstimateTokens, Spend;
  }

  lemma RecoveringIsSound(cfg: Config, st: State, final: bool)
    requires Sound(st)
    ensures var c := CompleteRecovering(cfg, st, final);
            GoodLog(c.st.log) && Paired(c.st.messages) && (c.Completed? ==> Named(c.resp.toolCalls))
  {
    hide Complete, Recover, Paired;
    CompleteIsSound(cfg, st, final);
    var c := Complete(cfg, st, final);
    RecoverIsSound(cfg, c.st, final);
  }

  lemma AnswerOpensTurn(st: State, resp: Response)
    requires Paired(st.messages) && Named(resp.toolCalls)
    ensures OpenTurn(Append(st, resp.Turn()).messages, resp.toolCalls)
    ensures resp.toolCalls == [] ==> Paired(Append(st, resp.Turn()).messages)
  {
    var msgs := st.messages + [resp.Turn()];
    assert msgs[..|msgs| - 1] == st.messages;
    if resp.toolCalls == [] {
      PairedTurn(st.messages, resp.Turn(), []);
      assert st.messages + [resp.Turn()] + [] == msgs;
    }
  }

  lemma ContinueIsSound(cfg: Config, st: State, head: Response, final: bool)
    requires Sound(st)
    ensures CompletionSound(ContinueCapped(cfg, st, head, final))
  {
    AppendUserTurn(st.messages, TextMessage(User, cfg.prompts.continueText));
    var st1 := Append(st, TextMessage(User, cfg.prompts.continueText));
    RecoveringIsSound(cfg, st1, final);
    var d := CompleteRecovering(cfg, st1, final);
    if d.Completed? {
      AnswerOpensTurn(d.st, d.resp);
    }
    hide CompleteRecovering, Paired, Stitch;
  }

  lemma CompleteOnceIsSound(cfg: Config, st: State, final: bool)
    requires Sound(st)
    ensures CompletionSound(CompleteOnce(cfg, st, final))
  {
    RecoveringIsSound(cfg, st, final);
    var c := CompleteRecovering(cfg, st, final);
    if c.Completed? {
      AnswerOpensTurn(c.st, c.resp);
      if c.resp.toolCalls == [] {
        ContinueIsSound(cfg, Append(c.st, c.resp.Turn()), c.resp, final);
      }
    }
    hide CompleteRecovering, ContinueCapped, Paired;
  }

  // ----- The tool phase -----

  lemma {:induction false} ResultsAnswer(st: State, calls: seq<ToolCall>, results: seq<ToolRes>)
    requires |results| <= |calls| && Named(calls) && GoodLog(st.log)
    ensures var r := Results(st, calls, results);
            && GoodLog(r.log)
            && |r.messages| == |st.messages| + |results|
            && r.messages[..|st.messages|] == st.messages
            && Answers(r.messages[|st.messages|..], calls[..|results|])
  {
    if results != [] {
      var n := |results| - 1;
      ResultsAnswer(st, calls, results[..n]);
      var prev := Results(st, calls, results[..n]);
      var r := Results(st, calls, results);
      var m := ResMessage(results[n], calls[n].id);
      assert r.messages == prev.messages + [m];
      var k := |st.messages|;
      assert r.messages[k..] == prev.messages[k..] + [m];
      assert calls[..n + 1] == calls[..n] + [calls[n]];
      assert calls[n] in calls;
      AnswersSnoc(prev.messages[k..], calls[..n], m, calls[n]);
    }
  }

  lemma AnswersSnoc(results: seq<Message>, calls: seq<ToolCall>, m: Message, c: ToolCall)
    requires Answers(results, calls) && IsAnswer(m, c)
    ensures Answers(results + [m], calls + [c])
  {
    forall k | 0 <= k < |calls + [c]| ensures IsAnswer((results + [m])[0 + k], (calls + [c])[k]) {
      if k < |calls| {
        assert IsAnswer(results[0 + k], calls[k]);
      }
    }
  }

  /** Answering a prefix of an open turn's calls closes it when the prefix is all of them, and otherwise
      leaves exactly one dangling turn. */
  lemma AnswersClose(before: seq<Message>, after: seq<Message>, calls: seq<ToolCall>, r: nat)
    requires OpenTurn(before, calls) && r <= |calls| && |after| == |before| + r && after[..|before|] == before
    requires Answers(after[|before|..], calls[..r])
    ensures r == |calls| ==> Paired(after)
    ensures Seedable(after)
  {
    var i: nat := |before| - 1;
    if r == |calls| {
      assert calls[..r] == calls;
      PairedTurn(before[..i], before[i], after[|before|..]);
      assert before[..i] + [before[i]] + after[|before|..] == after;
    } else {
      hide Paired;
      assert after[..i] == before[..i] && after[i] == before[i];
      assert after[i + 1..] == after[|before|..];
      assert DanglesAt(after, i, r);
    }
  }

  /** A turn whose result keeps the loop going is sound; one that ends the run is at least continuable. */
  ghost predicate TurnSound(t: Turned) {
    && GoodLog(t.st.log)
    && (t.Again? ==> Paired(t.st.messages))
    && Seedable(t.st.messages)
  }

  lemma OpenIsSeedable(msgs: seq<Message>, calls: seq<ToolCall>)
    requires OpenTurn(msgs, calls)
    ensures Seedable(msgs)
    ensures calls == [] ==> Paired(msgs)
  {
    assert msgs[|msgs|..] == [];
    AnswersClose(msgs, msgs, calls, 0);
  }

  lemma FinalTurnIsSound(cfg: Config, st: State, reason: Truncation)
    requires Sound(st)
    ensures CompletionSound(FinalTurn(cfg, st, reason))
  {
    var st1 := Append(st, TextMessage(User, cfg.finalizePrompt))
                 .(finalized := true, triggers := st.triggers.(stubOnly := reason.TokenBudget? || reason.BudgetPool?));
    AppendUserTurn(st.messages, TextMessage(User, cfg.finalizePrompt));
    MaybeCompactIsSound(cfg, st1);
    CompleteOnceIsSound(cfg, MaybeCompact(cfg, st1).st, true);
    hide MaybeCompact, CompleteOnce, Paired;
  }

  lemma StopIsSound(cfg: Config, st: State, reason: Truncation)
    requires Sound(st)
    ensures TurnSound(Stop(cfg, st, reason))
  {
    hide FinalTurn, Paired, OpenTurn, GoodLog;
    FinalTurnIsSound(cfg, st, reason);
    var c := FinalTurn(cfg, st, reason);
    if c.Completed? {
      OpenIsSeedable(c.st.messages, c.resp.toolCalls);
    }
  }

  lemma ToolPhaseIsSound(cfg: Config, st: State, calls: seq<ToolCall>)
    requires OpenTurn(st.messages, calls) && GoodLog(st.log) && NoEarlyStop(cfg, st, calls)
    ensures TurnSound(ToolPhase(cfg, st, calls))
  {
    var (results, w) := ExecuteTools(st.world, calls, cfg.parallel, cfg.accepts, cfg.outputMax);
    var st0 := st.(world := w);
    ResultsAnswer(st0, calls, results);
    var st1 := Results(st0, calls, results);
    AnswersClose(st.messages, st1.messages, calls, |results|);
    var (done, w1) := Cancelled(w);
    if !done {
      StopIsSound(cfg, st1.(world := w1), TokenBudget);
    }
    hide ExecuteTools, Results, Stop, Paired, Answers;
  }

  /** Fewer results than calls come back only when the context is done, and it then stays done. */
  predicate NoEarlyStop(cfg: Config, st: State, calls: seq<ToolCall>)
    requires Named(calls)
  {
    var (results, w) := ExecuteTools(st.world, calls, cfg.parallel, cfg.accepts, cfg.outputMax);
    |results| < |calls| ==> Cancelled(w).0
  }

  lemma {:induction false} SequentialStopsOnlyWhenDone(w: World, calls: seq<ToolCall>, ds: seq<Decision>,
                                                       accepts: bool, max: int, n: nat)
    requires n <= |calls| == |ds| && Named(calls)
    ensures var (rs, stopped, w1) := Sequential(w, calls, ds, accepts, max, n); stopped ==> Cancelled(w1).0
  {
    hide RunCall, Cancelled;
    if n > 0 {
      SequentialStopsOnlyWhenDone(w, calls, ds, accepts, max, n - 1);
      DoneStaysDone(Sequential(w, calls, ds, accepts, max, n - 1).2);
    }
  }

  lemma ToolsStopOnlyWhenDone(cfg: Config, st: State, calls: seq<ToolCall>)
    requires Named(calls)
    ensures NoEarlyStop(cfg, st, calls)
  {
    var (ds, w1) := AuthorizeCalls(st.world, calls);
    SequentialStopsOnlyWhenDone(w1, calls, ds, cfg.accepts, cfg.outputMax, |calls|);
    hide Sequential, Parallel, AuthorizeCalls, NextOrder;
  }

  // ----- The loop -----

  lemma {:induction false} DeliverIsSound(st: State, turns: seq<seq<Block>>)
    requires Sound(st)
    ensures Sound(Deliver(st, turns))
  {
    hide Paired;
    if turns != [] {
      var st1 := Deliver(st, turns[..|turns| - 1]);
      var m := SteerMessage(turns[|turns| - 1]);
      DeliverIsSound(st, turns[..|turns| - 1]);
      EmitKeepsLog(st1.log, Steered(st.iterations + 1, m));
      AppendUserTurn(st1.messages, m);
    }
  }

  lemma NoCallsIsSound(cfg: Config, st: State, resp: Response)
    requires Sound(st)
    ensures TurnSound(NoCalls(cfg, st, resp))
  {
    var (turns, w) := Drain(st.world);
    DeliverIsSound(st.(world := w), turns);
    var st1 := Deliver(st.(world := w), turns);
    AppendUserTurn(st1.messages, TextMessage(User, cfg.prompts.emptyTurnNudge));
    hide Deliver, Paired;
  }

  lemma BodyIsSound(cfg: Config, st: State)
    requires Sound(st)
    ensures TurnSound(Body(cfg, st))
  {
    var (turns, w) := Drain(st.world);
    DeliverIsSound(st.(world := w), turns);
    var st1 := DrainInto(st).1;
    MaybeCompactIsSound(cfg, st1);
    var m := MaybeCompact(cfg, st1);
    CompleteOnceIsSound(cfg, m.st, false);
    var c := CompleteOnce(cfg, m.st, false);
    if c.Completed? {
      if c.resp.toolCalls == [] {
        OpenIsSeedable(c.st.messages, c.resp.toolCalls);
        NoCallsIsSound(cfg, c.st, c.resp);
      } else {
        ToolsStopOnlyWhenDone(cfg, c.st, c.resp.toolCalls);
        ToolPhaseIsSound(cfg, c.st, c.resp.toolCalls);
      }
    }
    hide DrainInto, MaybeCompact, CompleteOnce, NoCalls, ToolPhase, Paired, OpenTurn, NoEarlyStop;
  }

  lemma TurnIsSound(cfg: Config, st: State)
    requires Sound(st)
    ensures TurnSound(Turn(cfg, st))
  {
    var (exhausted, w) := PoolExhausted(st.world);
    var (done, w1) := Cancelled(w);
    StopIsSound(cfg, st, MaxIterations);
    StopIsSound(cfg, st, TokenBudget);
    StopIsSound(cfg, st.(world := w), BudgetPool);
    BodyIsSound(cfg, st.(world := w1));
    hide Stop, Body, Paired, PoolExhausted, Cancelled;
  }

  lemma {:induction false} RunIsSound(cfg: Config, st: State)
    requires Sound(st)
    ensures GoodLog(Run(cfg, st).st.log) && Seedable(Run(cfg, st).st.messages)
    decreases Remaining(st.world)
  {
    TurnIsSound(cfg, st);
    hide Turn, Paired, Seedable;
    var t := Turn(cfg, st);
    if t.Again? {
      RunIsSound(cfg, t.st);
    }
  }

  /** Histories a run may be continued from: whole turns, or one cut-short tool turn whose missing
      calls include an id no answered call has. */
  ghost predicate Continuable(seed: seq<Message>) {
    Paired(Trimmed(seed))
  }

  /** In every run, from a fresh task or a continuable seed and against every client, tool, policy,
      cancellation, steering and compaction behaviour, every request carries a well-formed history, and
      the history the run leaves can itself be continued, up to repeated ids in a cut-short turn. */
  lemma EveryRequestIsPaired(cfg: Config, id: string, seed: seq<Message>, task: Message, offered: seq<string>, w: World)
    requires task.role.User? && task.toolCalls == [] && Continuable(seed)
    ensures var run := Run(cfg, Begin(cfg, id, seed, task, offered, w));
            && (forall i :: 0 <= i < |run.st.log| && run.st.log[i].Completion? && !run.st.log[i].purpose
                  ==> Paired(run.st.log[i].req.messages))
            && Seedable(run.st.messages)
  {
    var st := Begin(cfg, id, seed, task, offered, w);
    assert Sound(st) by {
      if seed == [] {
        PairedOne(task);
      } else {
        AppendUserTurn(Trimmed(seed), task);
      }
    }
    RunIsSound(cfg, st);
    hide Run, Paired, Seedable;
    var log := Run(cfg, st).st.log;
    forall i | 0 <= i < |log| && log[i].Completion? && !log[i].purpose ensures Paired(log[i].req.messages) {
      assert GoodEvent(log[i]);
    }
  }

  /** What a run leaves is continuable when the ids of its last tool turn are distinct. */
  lemma LeftoverIsContinuable(seed: seq<Message>)
    requires Seedable(seed)
    requires forall i: nat, j, k :: i < |seed| && 0 <= j < k < |seed[i].toolCalls| ==>
             seed[i].toolCalls[j].id != seed[i].toolCalls[k].id
    ensures Continuable(seed)
  {
    if Paired(seed) {
      TrimKeepsPaired(seed);
    } else {
      var i: nat, r: nat :| DanglesAt(seed, i, r);
      DistinctIdsTrim(seed, i, r);
    }
  }
}
