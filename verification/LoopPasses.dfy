/** What a run does to its compaction triggers (agent/runner.go:585-624, 721-753, 833-860): they are at every moment
    the ones it began with, after the passes it has made. */
module LoopPasses {

  import opened Chat
  import opened Summaries
  import opened Triggers
  import opened Record
  import opened Worlds
  import opened Loop
  import opened LoopSafety

  /** The triggers of st are t0 after its passes, up to the restriction a budget stop puts on them. */
  predicate Armed(t0: Triggers, st: State) {
    st.triggers == After(t0, st.passes).(stubOnly := st.triggers.stubOnly)
  }

  /** A pass as a run under cfg makes it: only the summarizing compactor is paid. */
  predicate Made(cfg: Config, p: Pass) {
    SanePass(p) && (p.paid ==> cfg.compactor.Summarizing?)
  }

  /** The triggers follow the passes, and a run under cfg made each of them. */
  predicate Tracks(cfg: Config, t0: Triggers, st: State) {
    Armed(t0, st) && forall p | p in st.passes :: Made(cfg, p)
  }

  lemma TracksOn(cfg: Config, t0: Triggers, st: State, next: State, p: Pass)
    requires Tracks(cfg, t0, st) && next.passes == st.passes + [p] && next.triggers == Apply(st.triggers, p) &&
             Made(cfg, p)
    ensures Tracks(cfg, t0, next)
  {
    hide After, Apply, Made;
    ArmedOn(t0, st, next, p);
  }

  /** The stubbing compactor makes no model call. */
  lemma StubsAreFree(cfg: Config, st: State)
    ensures cfg.compactor.Stubbing? ==> Compact(cfg, st).0.Usage() == ZERO_USAGE
  {
    hide SummaryCut, SummarizeAt, Charged;
  }

  lemma StubOnlyDoesNotMatter(t: Triggers, p: Pass, only: bool)
    ensures Apply(t.(stubOnly := only), p) == Apply(t, p).(stubOnly := only)
  {
  }

  lemma AfterSnoc(t0: Triggers, ps: seq<Pass>, p: Pass)
    ensures After(t0, ps + [p]) == Apply(After(t0, ps), p)
  {
    assert (ps + [p])[..|ps|] == ps;
  }

  /** One more pass. */
  lemma ArmedOn(t0: Triggers, st: State, next: State, p: Pass)
    requires Armed(t0, st) && next.passes == st.passes + [p] && next.triggers == Apply(st.triggers, p)
    ensures Armed(t0, next)
  {
    hide After, Apply;
    AfterSnoc(t0, st.passes, p);
    StubOnlyDoesNotMatter(After(t0, st.passes), p, st.triggers.stubOnly);
    StubOnlyKept(After(t0, st.passes), p);
  }

  lemma StubOnlyKept(t: Triggers, p: Pass)
    ensures Apply(t, p).stubOnly == t.stubOnly
  {
  }

  /** Neither triggers nor passes are touched. */
  predicate SamePasses(a: State, b: State) {
    a.triggers == b.triggers && a.passes == b.passes
  }

  lemma CompactSame(cfg: Config, st: State)
    ensures SamePasses(st, Compact(cfg, st).1) && Compact(cfg, st).1.messages == st.messages
  {
    hide RunCompactor, Spend, Charged;
  }

  /** A boundary that is due and kept adds its own pass. */
  lemma BoundaryAddsItsPass(cfg: Config, st: State)
    ensures var r := MaybeCompact(cfg, st);
            || SamePasses(st, r.st)
            || exists p: Pass ::
                 Made(cfg, p) && r.st.passes == st.passes + [p] && r.st.triggers == Apply(st.triggers, p)
  {
    hide Compact, EstimateTokens, Wire, Spend, Triggers.Rearm;
    CompactSame(cfg, st);
    var r := MaybeCompact(cfg, st);
    var before, after := EstimateTokens(Wire(st.messages, cfg.accepts)),
      EstimateTokens(Wire(r.st.messages, cfg.accepts));
    MaybeCompactNeverGrows(cfg, st);
    if !SamePasses(st, r.st) {
      var paid := Compact(cfg, st).0.Usage() != ZERO_USAGE;
      StubsAreFree(cfg, st);
      assert Made(cfg, AtBoundary(before, after, paid));
      assert r.st.passes == st.passes + [AtBoundary(before, after, paid)];
      assert r.st.triggers == Apply(st.triggers, AtBoundary(before, after, paid));
    }
  }

  lemma MaybeCompactArmed(t0: Triggers, cfg: Config, st: State)
    requires Tracks(cfg, t0, st)
    ensures Tracks(cfg, t0, MaybeCompact(cfg, st).st)
  {
    hide MaybeCompact, After, Apply;
    BoundaryAddsItsPass(cfg, st);
    var next := MaybeCompact(cfg, st).st;
    if !SamePasses(st, next) {
      var p :| Made(cfg, p) && next.passes == st.passes + [p] && next.triggers == Apply(st.triggers, p);
      TracksOn(cfg, t0, st, next, p);
    }
  }

  lemma CompleteSame(cfg: Config, st: State, final: bool)
    ensures SamePasses(st, Complete(cfg, st, final).st)
  {
    hide Ask, Wire, Fill, Charged, Usage.Add;
  }

  /** The retry state adds the recovery pass. */
  lemma RetryAddsItsPass(cfg: Config, st: State, st1: State, out: CompactOut)
    requires SamePasses(st, st1)
    ensures var next := RetryState(cfg, st, st1, out);
            var p := Recovery(EstimateTokens(Wire(st.messages, cfg.accepts)),
                              EstimateTokens(Wire(out.messages, cfg.accepts)),
                              out.Usage() != ZERO_USAGE);
            next.passes == st.passes + [p] && next.triggers == Apply(st.triggers, p)
  {
    hide EstimateTokens, Wire, Spend, Triggers.Refusal;
  }

  lemma RecoverArmed(t0: Triggers, cfg: Config, st: State, final: bool)
    requires Tracks(cfg, t0, st)
    ensures Tracks(cfg, t0, Recover(cfg, st, final).st)
  {
    hide Compact, Complete, RetryState, EstimateTokens, Wire, Spend, After, Apply;
    CompactSame(cfg, st);
    var (out, st1) := Compact(cfg, st);
    var next := RetryState(cfg, st, st1, out);
    RetryAddsItsPass(cfg, st, st1, out);
    StubsAreFree(cfg, st);
    TracksOn(cfg, t0, st, next, Recovery(EstimateTokens(Wire(st.messages, cfg.accepts)),
                                   EstimateTokens(Wire(out.messages, cfg.accepts)), out.Usage() != ZERO_USAGE));
    CompleteSame(cfg, next, final);
  }

  lemma RecoveringArmed(t0: Triggers, cfg: Config, st: State, final: bool)
    requires Tracks(cfg, t0, st)
    ensures Tracks(cfg, t0, CompleteRecovering(cfg, st, final).st)
  {
    hide Complete, Recover, After;
    CompleteSame(cfg, st, final);
    RecoverArmed(t0, cfg, Complete(cfg, st, final).st, final);
  }

  lemma CompleteOnceArmed(t0: Triggers, cfg: Config, st: State, final: bool)
    requires Tracks(cfg, t0, st)
    ensures Tracks(cfg, t0, CompleteOnce(cfg, st, final).st)
  {
    hide CompleteRecovering, Stitch, After;
    RecoveringArmed(t0, cfg, st, final);
    var c := CompleteRecovering(cfg, st, final);
    if c.Completed? {
      RecoveringArmed(t0, cfg, Append(Append(c.st, c.resp.Turn()), TextMessage(User, cfg.prompts.continueText)), final);
    }
  }

  lemma StopArmed(t0: Triggers, cfg: Config, st: State, reason: Truncation)
    requires Tracks(cfg, t0, st)
    ensures Tracks(cfg, t0, Stop(cfg, st, reason).st)
  {
    hide MaybeCompact, CompleteOnce, After;
    var st1 := Append(st, TextMessage(User, cfg.finalizePrompt))
                 .(finalized := true, triggers := st.triggers.(stubOnly := reason.TokenBudget? || reason.BudgetPool?));
    MaybeCompactArmed(t0, cfg, st1);
    CompleteOnceArmed(t0, cfg, MaybeCompact(cfg, st1).st, true);
  }

  lemma {:induction false} DeliverSame(st: State, turns: seq<seq<Block>>)
    ensures SamePasses(st, Deliver(st, turns))
  {
    if turns != [] {
      DeliverSame(st, turns[..|turns| - 1]);
    }
  }

  lemma {:induction false} ResultsSamePasses(st: State, calls: seq<ToolCall>, results: seq<ToolRes>)
    requires |results| <= |calls|
    ensures SamePasses(st, Results(st, calls, results))
  {
    hide RecordOf, ResMessage;
    if results != [] {
      ResultsSamePasses(st, calls, results[..|results| - 1]);
    }
  }

  lemma ToolPhaseArmed(t0: Triggers, cfg: Config, st: State, calls: seq<ToolCall>)
    requires Tracks(cfg, t0, st) && forall c | c in calls :: c.id != ""
    ensures Tracks(cfg, t0, ToolPhase(cfg, st, calls).st)
  {
    hide ExecuteTools, Results, Stop, Cancelled, After;
    var (results, w) := ExecuteTools(st.world, calls, cfg.parallel, cfg.accepts, cfg.outputMax);
    ResultsSamePasses(st.(world := w), calls, results);
    var st1 := Results(st.(world := w), calls, results);
    StopArmed(t0, cfg, st1.(world := Cancelled(st1.world).1), TokenBudget);
  }

  lemma DrainSame(st: State)
    ensures SamePasses(st, DrainInto(st).1)
  {
    hide Deliver;
    DeliverSame(st.(world := Drain(st.world).1), Drain(st.world).0);
  }

  lemma BodyArmed(t0: Triggers, cfg: Config, st: State)
    requires Tracks(cfg, t0, st)
    ensures Tracks(cfg, t0, Body(cfg, st).st)
  {
    hide DrainInto, MaybeCompact, CompleteOnce, ToolPhase, After;
    DrainSame(st);
    var st1 := DrainInto(st).1;
    MaybeCompactArmed(t0, cfg, st1);
    var m := MaybeCompact(cfg, st1);
    CompleteOnceArmed(t0, cfg, m.st, false);
    var c := CompleteOnce(cfg, m.st, false);
    if m.Kept? && c.Completed? {
      DrainSame(c.st);
      ServedCallsAreNamed(cfg, m.st, false);
      ToolPhaseArmed(t0, cfg, c.st, c.resp.toolCalls);
    }
  }

  lemma TurnArmed(t0: Triggers, cfg: Config, st: State)
    requires Tracks(cfg, t0, st)
    ensures Tracks(cfg, t0, Turn(cfg, st).st)
  {
    hide Body, Stop, PoolExhausted, Cancelled, After;
    var w := PoolExhausted(st.world).1;
    StopArmed(t0, cfg, st, MaxIterations);
    StopArmed(t0, cfg, st, TokenBudget);
    StopArmed(t0, cfg, st.(world := w), BudgetPool);
    BodyArmed(t0, cfg, st.(world := Cancelled(w).1));
  }

  lemma {:induction false} RunArmed(t0: Triggers, cfg: Config, st: State)
    requires Tracks(cfg, t0, st)
    ensures Tracks(cfg, t0, Run(cfg, st).st)
    decreases Remaining(st.world)
  {
    hide Turn, Tracks;
    TurnArmed(t0, cfg, st);
    if Turn(cfg, st).Again? {
      RunArmed(t0, cfg, Turn(cfg, st).st);
    }
  }

  /** Compaction work of every run is logarithmic. The budget in force at its end is the history budget times two to
      the number of its counted boundary passes; and with every boundary estimate at most e, k counted passes need
      historyBudget * 2^(k-1) < e. */
  lemma RunCompactsBoundedly(cfg: Config, id: string, seed: seq<Message>, task: Message, offered: seq<string>,
                             w: World, e: int)
    ensures var run := Run(cfg, Begin(cfg, id, seed, task, offered, w));
            var t0 := NewTriggers(cfg.historyBudget, cfg.contextReserve, cfg.contextWindow);
            var k := CountedPasses(t0, run.st.passes);
            && (forall p | p in run.st.passes :: Made(cfg, p))
            && run.st.triggers == After(t0, run.st.passes).(stubOnly := run.st.triggers.stubOnly)
            && run.st.triggers.budget == cfg.historyBudget * Pow2(k)
            && ((forall p | p in run.st.passes :: p.AtBoundary? ==> p.before <= e) && k >= 1 ==>
                  cfg.historyBudget * Pow2(k - 1) < e)
  {
    hide Run, After, CountedPasses, Pow2;
    var t0 := NewTriggers(cfg.historyBudget, cfg.contextReserve, cfg.contextWindow);
    var st := Begin(cfg, id, seed, task, offered, w);
    NoPasses(t0);
    RunArmed(t0, cfg, st);
    var ps := Run(cfg, st).st.passes;
    BudgetDoubles(t0, ps);
    if (forall p | p in ps :: p.AtBoundary? ==> p.before <= e) && CountedPasses(t0, ps) >= 1 {
      CompactionIsBounded(t0, ps, e);
    }
  }

  lemma NoPasses(t0: Triggers)
    ensures After(t0, []) == t0
  {
  }
}
