/** The ledger: a run's usage is the sum of the usage its record shows. */
module LoopLedger {

  import opened Chat
  import opened Summaries
  import opened CallIds
  import opened Record
  import opened Worlds
  import opened Loop

  function EventSpend(ev: Event): Usage {
    if ev.Completion? then Cost(ev.reply) else ZERO_USAGE
  }

  /** The sum over every successful completion, compaction calls included. */
  function LogSpend(log: seq<Event>): Usage {
    if log == [] then ZERO_USAGE else LogSpend(log[..|log| - 1]).Add(EventSpend(log[|log| - 1]))
  }

  /** The run's usage is its record's. */
  predicate Balanced(st: State) {
    st.usage == LogSpend(st.log)
  }

  lemma LogSpendSnoc(log: seq<Event>, ev: Event)
    ensures LogSpend(log + [ev]) == LogSpend(log).Add(EventSpend(ev))
  {
    assert (log + [ev])[..|log|] == log;
  }

  lemma StartIsFree(offered: seq<string>)
    ensures LogSpend([Start(offered)]) == ZERO_USAGE
  {
    hide LogSpend;
    NothingLogged();
    assert [] + [Start(offered)] == [Start(offered)];
    LogSpendSnoc([], Start(offered));
  }

  lemma NothingLogged()
    ensures LogSpend([]) == ZERO_USAGE
  {
  }

  lemma EmitFree(st: State, ev: Event)
    requires Balanced(st) && EventSpend(ev) == ZERO_USAGE
    ensures Balanced(Emit(st, ev))
  {
    hide LogSpend;
    LogSpendSnoc(st.log, ev);
  }

  lemma {:induction false} PurposeSpend(log: seq<Event>, step: nat, calls: seq<Reply>)
    ensures LogSpend(log + PurposeEvents(step, calls)) == LogSpend(log).Add(Spend(calls))
  {
    hide LogSpend, Spend, Usage.Add;
    AddZero(LogSpend(log));
    if calls == [] {
      NothingSpent();
      assert log + PurposeEvents(step, calls) == log;
    } else {
      var n := |calls| - 1;
      assert calls == calls[..n] + [calls[n]];
      SpendSnoc(calls[..n], calls[n]);
      var evs := PurposeEvents(step, calls);
      PurposeSpend(log, step, calls[..n]);
      assert evs[..n] == PurposeEvents(step, calls[..n]);
      assert log + evs == (log + evs[..n]) + [evs[n]];
      LogSpendSnoc(log + evs[..n], evs[n]);
      AddIsAssociative(LogSpend(log), Spend(calls[..n]), EventSpend(evs[n]));
    }
  }

  lemma CompactBalanced(cfg: Config, st: State)
    requires Balanced(st)
    ensures Balanced(Compact(cfg, st).1)
  {
    hide RunCompactor, Charged, LogSpend, Spend;
    var (out, st1) := Compact(cfg, st);
    PurposeSpend(st.log, st.iterations + 1, out.calls);
  }

  lemma MaybeCompactBalanced(cfg: Config, st: State)
    requires Balanced(st)
    ensures Balanced(MaybeCompact(cfg, st).st)
  {
    hide Compact, LogSpend, Spend, EstimateTokens;
    CompactBalanced(cfg, st);
    var (out, st1) := Compact(cfg, st);
    EmitFree(st1.(messages := out.messages),
             Compacted(st1.iterations + 1, EstimateTokens(Wire(st.messages, cfg.accepts)),
                       EstimateTokens(Wire(out.messages, cfg.accepts)), false));
  }

  lemma CompleteBalanced(cfg: Config, st: State, final: bool)
    requires Balanced(st)
    ensures Balanced(Complete(cfg, st, final).st)
  {
    hide Ask, Filled, Charged, LogSpend;
    var c := Complete(cfg, st, final);
    LogSpendSnoc(st.log, c.st.log[|st.log|]);
  }

  lemma RecoverBalanced(cfg: Config, st: State, final: bool)
    requires Balanced(st)
    ensures Balanced(Recover(cfg, st, final).st)
  {
    hide Compact, Complete, LogSpend, RetryState;
    CompactBalanced(cfg, st);
    var (out, st1) := Compact(cfg, st);
    RetryBalanced(cfg, st, st1, out);
    CompleteBalanced(cfg, RetryState(cfg, st, st1, out), final);
  }

  lemma RetryBalanced(cfg: Config, st: State, st1: State, out: CompactOut)
    requires Balanced(st1)
    ensures Balanced(RetryState(cfg, st, st1, out))
  {
    hide LogSpend, EstimateTokens, Spend;
    EmitFree(st1, Compacted(st.iterations + 1, EstimateTokens(st.messages), EstimateTokens(out.messages), true));
  }

  lemma RecoveringBalanced(cfg: Config, st: State, final: bool)
    requires Balanced(st)
    ensures Balanced(CompleteRecovering(cfg, st, final).st)
  {
    hide Complete, Recover, LogSpend;
    CompleteBalanced(cfg, st, final);
    RecoverBalanced(cfg, Complete(cfg, st, final).st, final);
  }

  lemma CompleteOnceBalanced(cfg: Config, st: State, final: bool)
    requires Balanced(st)
    ensures Balanced(CompleteOnce(cfg, st, final).st)
  {
    hide CompleteRecovering, LogSpend, Stitch;
    RecoveringBalanced(cfg, st, final);
    var c := CompleteRecovering(cfg, st, final);
    if c.Completed? {
      RecoveringBalanced(cfg, Append(Append(c.st, c.resp.Turn()), TextMessage(User, cfg.prompts.continueText)), final);
    }
  }

  lemma StopBalanced(cfg: Config, st: State, reason: Truncation)
    requires Balanced(st)
    ensures Balanced(Stop(cfg, st, reason).st)
  {
    hide MaybeCompact, CompleteOnce, LogSpend;
    var st1 := Append(st, TextMessage(User, cfg.finalizePrompt))
                 .(finalized := true, triggers := st.triggers.(stubOnly := reason.TokenBudget? || reason.BudgetPool?));
    MaybeCompactBalanced(cfg, st1);
    CompleteOnceBalanced(cfg, MaybeCompact(cfg, st1).st, true);
  }

  lemma {:induction false} DeliverBalanced(st: State, turns: seq<seq<Block>>)
    requires Balanced(st)
    ensures Balanced(Deliver(st, turns))
  {
    hide LogSpend;
    if turns != [] {
      var st1 := Deliver(st, turns[..|turns| - 1]);
      DeliverBalanced(st, turns[..|turns| - 1]);
      EmitFree(st1, Steered(st.iterations + 1, SteerMessage(turns[|turns| - 1])));
    }
  }

  lemma {:induction false} ResultsBalanced(st: State, calls: seq<ToolCall>, results: seq<ToolRes>)
    requires |results| <= |calls| && Balanced(st)
    ensures Balanced(Results(st, calls, results))
  {
    hide LogSpend, RecordOf, ResMessage;
    if results != [] {
      var n := |results| - 1;
      ResultsBalanced(st, calls, results[..n]);
      EmitFree(Results(st, calls, results[..n]), ToolRun(st.iterations, RecordOf(calls[n], results[n])));
    }
  }

  lemma ToolPhaseBalanced(cfg: Config, st: State, calls: seq<ToolCall>)
    requires Balanced(st) && (forall c | c in calls :: c.id != "")
    ensures Balanced(ToolPhase(cfg, st, calls).st)
  {
    hide ExecuteTools, Results, Stop, LogSpend;
    var (rs, w) := ExecuteTools(st.world, calls, cfg.parallel, cfg.accepts, cfg.outputMax);
    ResultsBalanced(st.(world := w), calls, rs);
    var after := Results(st.(world := w), calls, rs);
    StopBalanced(cfg, after.(world := Cancelled(after.world).1), TokenBudget);
  }

  lemma BodyBalanced(cfg: Config, st: State)
    requires Balanced(st)
    ensures Balanced(Body(cfg, st).st)
  {
    hide LogSpend, Deliver, MaybeCompact, CompleteOnce, ToolPhase;
    var (turns, w) := Drain(st.world);
    DeliverBalanced(st.(world := w), turns);
    var st1 := DrainInto(st).1;
    MaybeCompactBalanced(cfg, st1);
    var m := MaybeCompact(cfg, st1);
    CompleteOnceBalanced(cfg, m.st, false);
    var c := CompleteOnce(cfg, m.st, false);
    if m.Kept? && c.Completed? {
      if c.resp.toolCalls == [] {
        var (more, w1) := Drain(c.st.world);
        DeliverBalanced(c.st.(world := w1), more);
      } else {
        ServedCallsAreNamed(cfg, m.st, false);
        ToolPhaseBalanced(cfg, c.st, c.resp.toolCalls);
      }
    }
  }

  lemma TurnBalanced(cfg: Config, st: State)
    requires Balanced(st)
    ensures Balanced(Turn(cfg, st).st)
  {
    hide LogSpend, Stop, Body, PoolExhausted, Cancelled;
    var (exhausted, w) := PoolExhausted(st.world);
    var (done, w1) := Cancelled(w);
    StopBalanced(cfg, st, MaxIterations);
    StopBalanced(cfg, st, TokenBudget);
    StopBalanced(cfg, st.(world := w), BudgetPool);
    BodyBalanced(cfg, st.(world := w1));
  }

  /** In every run, whatever happens in it, Outcome.Usage is the sum of the usage of every successful
      completion the record holds. */
  lemma {:induction false} LedgerBalances(cfg: Config, st: State)
    requires Balanced(st)
    ensures Balanced(Run(cfg, st).st)
    decreases Remaining(st.world)
  {
    hide LogSpend, Turn;
    TurnBalanced(cfg, st);
    var t := Turn(cfg, st);
    if t.Again? {
      LedgerBalances(cfg, t.st);
    }
  }
}
