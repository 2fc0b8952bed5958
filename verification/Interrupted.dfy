/** A run that is cancelled or stopped by the pool later on: as long as it goes on, it is the run that never is. */
module Interrupted {

  import opened Decimal
  import opened Chat
  import opened Summaries
  import opened Triggers
  import opened CallIds
  import opened Record
  import opened Worlds
  import opened Loop
  import opened LoopTurns
  import opened LoopLog
  import opened ReplayClient
  import opened ReplayTheorem

  /** The world whose context never ends and whose pool never runs dry. */
  function Calmed(w: World): World {
    if w.Live? then w.(cancelIn := None, pool := []) else w
  }

  function CalmedState(st: State): State {
    st.(world := Calmed(st.world))
  }

  lemma CalmedIsUndisturbed(w: World)
    requires Steady(w)
    ensures Undisturbed(Calmed(w)) && w.Live? && Calmed(w).Live? && Calmed(w).tools == w.tools
  {
    hide PlainBlocks;
  }

  lemma AskCalmed(w: World, req: Request)
    requires w.Live?
    ensures Ask(Calmed(w), req) == (Ask(w, req).0, Calmed(Ask(w, req).1)) && Ask(w, req).1.Live?
  {
  }

  lemma AskSummaryCalmed(w: World, strip: string -> string, partial: string -> string, entries: seq<string>)
    requires w.Live?
    ensures var (pass, w') := AskSummary(w, strip, partial, entries);
            AskSummary(Calmed(w), strip, partial, entries) == (pass, Calmed(w')) && w'.Live?
  {
    hide Summarize;
  }

  lemma CompleteCalmed(cfg: Config, st: State, final: bool)
    requires st.world.Live?
    ensures var c := Complete(cfg, st, final);
            c.st.world.Live? && Complete(cfg, CalmedState(st), final) == CalmedCompletion(c)
  {
    hide Ask, Wire, Filled, Charged, Usage.Add;
    AskCalmed(st.world, Request(Wire(st.messages, cfg.accepts), final));
  }

  function CalmedCompletion(c: Completed): Completed {
    c.(st := CalmedState(c.st))
  }

  lemma CompactorCalmed(cfg: Config, w: World, msgs: seq<Message>, stubOnly: bool)
    requires w.Live?
    ensures var (out, w') := RunCompactor(cfg, w, msgs, stubOnly);
            RunCompactor(cfg, Calmed(w), msgs, stubOnly) == (out, Calmed(w')) && w'.Live?
  {
    hide SummaryCut, AskSummary, Summarized;
    var cut := SummaryCut(cfg.prompts, msgs);
    if cut.Cut? {
      AskSummaryCalmed(w, cfg.strip, cfg.partial, cfg.render(Wire(msgs, cfg.accepts)[cut.from..cut.at]));
    }
  }

  lemma CompactCalmed(cfg: Config, st: State)
    requires st.world.Live?
    ensures var (out, st1) := Compact(cfg, st);
            Compact(cfg, CalmedState(st)) == (out, CalmedState(st1)) && st1.world.Live?
  {
    hide RunCompactor, Spend, Charged, PurposeEvents, Calmed, Usage.Add;
    CompactorCalmed(cfg, st.world, st.messages, st.triggers.stubOnly);
  }

  lemma MaybeCompactCalmed(cfg: Config, st: State)
    requires st.world.Live?
    ensures var m := MaybeCompact(cfg, st);
            m.st.world.Live? && MaybeCompact(cfg, CalmedState(st)) == m.(st := CalmedState(m.st))
  {
    hide Compact, EstimateTokens, Wire, Spend, Triggers.Rearm, Calmed;
    CompactCalmed(cfg, st);
  }

  lemma RecoverCalmed(cfg: Config, st: State, final: bool)
    requires st.world.Live?
    ensures var c := Recover(cfg, st, final);
            c.st.world.Live? && Recover(cfg, CalmedState(st), final) == CalmedCompletion(c)
  {
    hide Compact, Complete, EstimateTokens, Wire, Spend, Triggers.Refusal, Calmed;
    CompactCalmed(cfg, st);
    var (out, st1) := Compact(cfg, st);
    CompleteCalmed(cfg, RetryState(cfg, st, st1, out), final);
  }

  lemma RecoveringCalmed(cfg: Config, st: State, final: bool)
    requires st.world.Live?
    ensures var c := CompleteRecovering(cfg, st, final);
            c.st.world.Live? && CompleteRecovering(cfg, CalmedState(st), final) == CalmedCompletion(c)
  {
    hide Complete, Recover, Calmed;
    CompleteCalmed(cfg, st, final);
    RecoverCalmed(cfg, Complete(cfg, st, final).st, final);
  }

  lemma CompleteOnceCalmed(cfg: Config, st: State, final: bool)
    requires st.world.Live?
    ensures var c := CompleteOnce(cfg, st, final);
            c.st.world.Live? && CompleteOnce(cfg, CalmedState(st), final) == CalmedCompletion(c)
  {
    hide CompleteRecovering, Stitch, Calmed;
    RecoveringCalmed(cfg, st, final);
    var c := CompleteRecovering(cfg, st, final);
    if c.Completed? {
      RecoveringCalmed(cfg, Append(Append(c.st, c.resp.Turn()), TextMessage(User, cfg.prompts.continueText)), final);
    }
  }

  // ----- Tools -----

  /** The context has not ended. */
  predicate GoingOn(w: World) {
    w.Live? && !Cancelled(w).0
  }

  lemma AuthorizeCalmed(w: World, call: ToolCall)
    requires w.Live?
    ensures var (d, w') := Authorize(w, call);
            w'.Live? && (GoingOn(w') ==> GoingOn(w) && Authorize(Calmed(w), call) == (d, Calmed(w')))
  {
  }

  lemma {:induction false} AuthorizeCallsCalmed(w: World, calls: seq<ToolCall>)
    requires w.Live?
    ensures var (ds, w') := AuthorizeCalls(w, calls);
            && w'.Live? && w'.tools == w.tools
            && (GoingOn(w') ==> GoingOn(w) && AuthorizeCalls(Calmed(w), calls) == (ds, Calmed(w')))
  {
    hide Authorize, Cancelled;
    if calls != [] {
      var init, c := calls[..|calls| - 1], calls[|calls| - 1];
      AuthorizeCallsCalmed(w, init);
      var w1 := AuthorizeCalls(w, init).1;
      AuthorizeCalmed(w1, c);
      AuthorizeTools(w1, c);
    }
  }

  lemma AuthorizeTools(w: World, call: ToolCall)
    requires w.Live?
    ensures Authorize(w, call).1.Live? && Authorize(w, call).1.tools == w.tools
  {
  }

  lemma RunCallCalmed(w: World, call: ToolCall, d: Decision, accepts: bool, max: int)
    requires w.Live? && d.Go? && call.id != ""
    ensures var (res, w') := RunCall(w, call, d, accepts, max);
            w'.Live? && (GoingOn(w') <==> GoingOn(w)) && RunCall(Calmed(w), call, d, accepts, max) == (res, Calmed(w'))
  {
    hide RunRes;
  }

  lemma {:induction false} SequentialCalmed(w: World, calls: seq<ToolCall>, ds: seq<Decision>, accepts: bool, max: int,
                                            n: nat)
    requires w.Live? && n <= |calls| == |ds| && forall c | c in calls :: c.id != ""
    ensures var (rs, stopped, w') := Sequential(w, calls, ds, accepts, max, n);
            && w'.Live?
            && (GoingOn(w') ==>
                  GoingOn(w) && !stopped && Sequential(Calmed(w), calls, ds, accepts, max, n) ==
                    (rs, false, Calmed(w')))
  {
    hide RunCall, Calmed;
    if n > 0 {
      SequentialCalmed(w, calls, ds, accepts, max, n - 1);
      var w1 := Sequential(w, calls, ds, accepts, max, n - 1).2;
      LookCalmed(w1);
      if ds[n - 1].Go? {
        RunCallCalmed(Cancelled(w1).1, calls[n - 1], ds[n - 1], accepts, max);
      }
    }
  }

  lemma LookCalmed(w: World)
    requires w.Live?
    ensures Cancelled(w).1.Live? && (Cancelled(w).0 ==> !GoingOn(Cancelled(w).1))
    ensures GoingOn(Cancelled(w).1) ==>
              GoingOn(w) && Calmed(Cancelled(w).1) == Calmed(w) && Cancelled(Calmed(w)) == (false, Calmed(w))
  {
  }

  lemma {:induction false} ParallelCalmed(w: World, calls: seq<ToolCall>, ds: seq<Decision>, accepts: bool, max: int,
                                          order: seq<nat>)
    requires w.Live? && |calls| == |ds| && (forall c | c in calls :: c.id != "")
    requires forall k :: 0 <= k < |order| ==> order[k] < |calls|
    ensures var (rs, w') := Parallel(w, calls, ds, accepts, max, order);
            w'.Live? && (GoingOn(w') <==> GoingOn(w)) &&
            Parallel(Calmed(w), calls, ds, accepts, max, order) == (rs, Calmed(w'))
  {
    hide RunCall, Calmed, GoingOn;
    if order != [] {
      var init, i := order[..|order| - 1], order[|order| - 1];
      ParallelCalmed(w, calls, ds, accepts, max, init);
      if ds[i].Go? {
        RunCallCalmed(Parallel(w, calls, ds, accepts, max, init).1, calls[i], ds[i], accepts, max);
      }
    }
  }

  /** A tool turn behind which the context has not ended is the same in the calmed world. */
  lemma ToolsCalmed(w: World, calls: seq<ToolCall>, parallel: bool, accepts: bool, max: int)
    requires w.Live? && forall c | c in calls :: c.id != ""
    ensures var (rs, w') := ExecuteTools(w, calls, parallel, accepts, max);
            w'.Live? && (GoingOn(w') ==> ExecuteTools(Calmed(w), calls, parallel, accepts, max) == (rs, Calmed(w')))
  {
    hide AuthorizeCalls, Sequential, Parallel, Calmed, GoingOn;
    AuthorizeCallsCalmed(w, calls);
    var (ds, w1) := AuthorizeCalls(w, calls);
    SequentialCalmed(w1, calls, ds, accepts, max, |calls|);
    OrderCalmed(w1, |calls|);
    ParallelCalmed(w1, calls, ds, accepts, max, Identity(|calls|));
  }

  lemma OrderCalmed(w: World, n: nat)
    requires w.Live?
    ensures NextOrder(w, n) == (Identity(n), w) && NextOrder(Calmed(w), n) == (Identity(n), Calmed(w))
  {
  }

  // ----- Turns -----

  function CalmedTurn(t: Turned): Turned {
    t.(st := CalmedState(t.st))
  }

  lemma StopCalmed(cfg: Config, st: State, reason: Truncation)
    requires st.world.Live?
    ensures Stop(cfg, CalmedState(st), reason) == CalmedTurn(Stop(cfg, st, reason))
  {
    hide FinalTurn, Calmed;
    FinalTurnCalmed(cfg, st, reason);
  }

  lemma FinalTurnCalmed(cfg: Config, st: State, reason: Truncation)
    requires st.world.Live?
    ensures FinalTurn(cfg, CalmedState(st), reason) == CalmedCompletion(FinalTurn(cfg, st, reason))
  {
    hide MaybeCompact, CompleteOnce, Calmed;
    var st1 := Append(st, TextMessage(User, cfg.finalizePrompt))
                 .(finalized := true, triggers := st.triggers.(stubOnly := reason.TokenBudget? || reason.BudgetPool?));
    MaybeCompactCalmed(cfg, st1);
    CompleteOnceCalmed(cfg, MaybeCompact(cfg, st1).st, true);
  }

  lemma {:induction false} ResultsCalmed(st: State, calls: seq<ToolCall>, results: seq<ToolRes>)
    requires |results| <= |calls|
    ensures Results(CalmedState(st), calls, results) == CalmedState(Results(st, calls, results))
  {
    hide RecordOf, ResMessage, Calmed;
    if results != [] {
      ResultsCalmed(st, calls, results[..|results| - 1]);
    }
  }

  lemma ToolCheckCalmed(cfg: Config, st: State, calls: seq<ToolCall>)
    requires st.world.Live? && (forall c | c in calls :: c.id != "") && GoingOn(ToolCheck(cfg, st, calls).world)
    ensures ToolCheck(cfg, CalmedState(st), calls) == CalmedState(ToolCheck(cfg, st, calls))
  {
    hide ExecuteTools, Results, Calmed, GoingOn;
    var (rs, w) := ExecuteTools(st.world, calls, cfg.parallel, cfg.accepts, cfg.outputMax);
    ToolsCalmed(st.world, calls, cfg.parallel, cfg.accepts, cfg.outputMax);
    ResultsCalmed(st.(world := w), calls, rs);
  }

  lemma AnyLookCalmed(w: World)
    requires w.Live?
    ensures Cancelled(w).1.Live? && Calmed(Cancelled(w).1) == Calmed(w) && Cancelled(Calmed(w)) == (false, Calmed(w))
    ensures PoolExhausted(w).1.Live? && Calmed(PoolExhausted(w).1) == Calmed(w)
    ensures PoolExhausted(Calmed(w)) == (false, Calmed(w)) && Seed(w) == Seed(Calmed(w)) == ZERO_USAGE
  {
  }

  /** The world behind a tool turn is live if the one before it is. */
  lemma ToolCheckIsLive(cfg: Config, st: State, calls: seq<ToolCall>)
    requires st.world.Live? && (forall c | c in calls :: c.id != "")
    ensures ToolCheck(cfg, st, calls).world.Live?
  {
    hide ExecuteTools, Results;
    ToolsCalmed(st.world, calls, cfg.parallel, cfg.accepts, cfg.outputMax);
  }

  lemma ToolPhaseOf(cfg: Config, st: State, calls: seq<ToolCall>)
    requires forall c | c in calls :: c.id != ""
    ensures var a := ToolCheck(cfg, st, calls);
            var a2 := a.(world := Cancelled(a.world).1);
            ToolPhase(cfg, st, calls) ==
              if Cancelled(a.world).0 then Broke(Canceled, a2)
              else if OverBudget(cfg, Budgeted(a2)) then Stop(cfg, a2, TokenBudget) else Again(a2)
  {
    hide ExecuteTools, Results, Stop, Cancelled, OverBudget, Budgeted;
  }

  lemma ToolPhaseCalmed(cfg: Config, st: State, calls: seq<ToolCall>)
    requires st.world.Live? && forall c | c in calls :: c.id != ""
    ensures var t := ToolPhase(cfg, st, calls);
            GoingOn(ToolCheck(cfg, st, calls).world) ==> ToolPhase(cfg, CalmedState(st), calls) == CalmedTurn(t)
  {
    hide ToolCheck, ToolPhase, Stop, Cancelled, Calmed;
    var a := ToolCheck(cfg, st, calls);
    ToolCheckIsLive(cfg, st, calls);
    AnyLookCalmed(a.world);
    ToolPhaseOf(cfg, st, calls);
    ToolPhaseOf(cfg, CalmedState(st), calls);
    if GoingOn(a.world) {
      ToolCheckCalmed(cfg, st, calls);
      StopCalmed(cfg, a.(world := Cancelled(a.world).1), TokenBudget);
    }
  }

  /** The pool stops the run in this state. */
  predicate PoolStops(cfg: Config, st: State) {
    && !(cfg.maxIterations >= 0 && st.iterations >= cfg.maxIterations) && !OverBudget(cfg, Budgeted(st))
    && PoolExhausted(st.world).0
  }

  lemma NoSteersCalmed(st: State)
    requires Steady(st.world)
    ensures DrainInto(st) == (false, st) && DrainInto(CalmedState(st)) == (false, CalmedState(st))
  {
    hide PlainBlocks;
    assert st.(world := st.world) == st;
    var c := CalmedState(st);
    assert c.(world := c.world) == c;
  }

  lemma NoCallsCalmed(cfg: Config, st: State, resp: Response)
    requires Steady(st.world)
    ensures NoCalls(cfg, CalmedState(st), resp) == CalmedTurn(NoCalls(cfg, st, resp))
  {
    hide DrainInto, Steady, Calmed;
    NoSteersCalmed(st);
  }

  /** What a turn asks, once nothing is to be delivered. */
  lemma BodyOf(cfg: Config, st: State)
    requires DrainInto(st) == (false, st)
    ensures var m := MaybeCompact(cfg, st);
            var c := CompleteOnce(cfg, m.st, false);
            && (c.Completed? ==> forall t | t in c.resp.toolCalls :: t.id != "")
            && Body(cfg, st) ==
                 if m.NotCompacted? then Broke(CompactionFailed, m.st)
                 else if c.Faulted? then Broke(c.fault, c.st)
                 else if c.resp.toolCalls == [] then NoCalls(cfg, c.st, c.resp)
                 else ToolPhase(cfg, c.st, c.resp.toolCalls)
  {
    hide DrainInto, MaybeCompact, CompleteOnce, NoCalls, ToolPhase;
    ServedCallsAreNamed(cfg, MaybeCompact(cfg, st).st, false);
  }

  predicate NotCancelled(t: Turned) {
    t.Broke? ==> t.fault != Canceled
  }

  lemma BodyCalmed(cfg: Config, st: State)
    requires Steady(st.world) && NotCancelled(Body(cfg, st))
    ensures Body(cfg, CalmedState(st)) == CalmedTurn(Body(cfg, st))
  {
    hide DrainInto, Body, MaybeCompact, CompleteOnce, NoCalls, ToolPhase, ToolCheck, Steady, Undisturbed, Calmed,
         Cancelled, Scan;
    SteadyIsLive(st.world);
    NoSteersCalmed(st);
    BodyOf(cfg, st);
    BodyOf(cfg, CalmedState(st));
    MaybeCompactCalmed(cfg, st);
    MaybeCompactGrows(cfg, st);
    var m := MaybeCompact(cfg, st);
    CompleteOnceCalmed(cfg, m.st, false);
    CompleteOnceGrows(cfg, m.st, false);
    var c := CompleteOnce(cfg, m.st, false);
    if m.Kept? && c.Completed? {
      if c.resp.toolCalls == [] {
        NoCallsCalmed(cfg, c.st, c.resp);
      } else {
        ToolCheckIsLive(cfg, c.st, c.resp.toolCalls);
        ToolPhaseOf(cfg, c.st, c.resp.toolCalls);
        ToolPhaseCalmed(cfg, c.st, c.resp.toolCalls);
      }
    }
  }

  /** A turn that neither the context nor the pool stopped is the same turn in the calmed world. */
  lemma TurnCalmed(cfg: Config, st: State)
    requires Steady(st.world) && !PoolStops(cfg, st) && NotCancelled(Turn(cfg, st))
    ensures Turn(cfg, CalmedState(st)) == CalmedTurn(Turn(cfg, st))
  {
    hide Body, Stop, Steady, Undisturbed, Calmed, Cancelled, PoolExhausted;
    SteadyIsLive(st.world);
    var w := PoolExhausted(st.world).1;
    var w1 := Cancelled(w).1;
    AnyLookCalmed(st.world);
    AnyLookCalmed(w);
    LooksAreCalm(st.world);
    LooksAreCalm(w);
    var c := CalmedState(st);
    assert c.(world := c.world) == c && CalmedState(st.(world := w1)) == c;
    StopCalmed(cfg, st, MaxIterations);
    StopCalmed(cfg, st, TokenBudget);
    if NotCancelled(Body(cfg, st.(world := w1))) {
      BodyCalmed(cfg, st.(world := w1));
    }
  }

  /** A run that goes on for k turns goes on as it would undisturbed. */
  lemma {:induction false} TurnsCalmed(cfg: Config, st: State, k: nat)
    requires Steady(st.world) && TurnsFrom(cfg, st, k).Some?
    ensures var at := TurnsFrom(cfg, st, k).value;
            Steady(at.world) && TurnsFrom(cfg, CalmedState(st), k) == Some(CalmedState(at))
  {
    hide Turn, Steady, Undisturbed, Calmed, CalmedState;
    if k > 0 {
      TurnsCalmed(cfg, st, k - 1);
      var s := TurnsFrom(cfg, st, k - 1).value;
      TurnIsCalm(cfg, s);
      PoolStopped(cfg, s);
      TurnCalmed(cfg, s);
    }
  }

  lemma PoolStopped(cfg: Config, st: State)
    ensures PoolStops(cfg, st) ==> !Turn(cfg, st).Again?
  {
    hide Stop, Body, PoolExhausted, Cancelled;
  }

  /** And at the check behind a turn's tools. */
  lemma CheckCalmed(cfg: Config, st: State)
    requires Steady(st.world) && TurnCheck(cfg, st).Some?
    ensures TurnCheck(cfg, CalmedState(st)) == Some(CalmedState(TurnCheck(cfg, st).value))
  {
    hide DrainInto, MaybeCompact, CompleteOnce, ToolCheck, Steady, Undisturbed, Calmed, Cancelled, PoolExhausted, Scan;
    SteadyIsLive(st.world);
    var w := PoolExhausted(st.world).1;
    var w1 := Cancelled(w).1;
    AnyLookCalmed(st.world);
    AnyLookCalmed(w);
    LooksAreCalm(st.world);
    LooksAreCalm(w);
    var st0, c0 := st.(world := w1), CalmedState(st);
    assert c0.(world := c0.world) == c0 && CalmedState(st0) == c0;
    NoSteersCalmed(st0);
    MaybeCompactCalmed(cfg, st0);
    var m := MaybeCompact(cfg, st0);
    CompleteOnceCalmed(cfg, m.st, false);
    var c := CompleteOnce(cfg, m.st, false);
    ServedCallsAreNamed(cfg, m.st, false);
    var a := ToolCheck(cfg, c.st, c.resp.toolCalls);
    ToolCheckIsLive(cfg, c.st, c.resp.toolCalls);
    AnyLookCalmed(a.world);
    ToolCheckCalmed(cfg, c.st, c.resp.toolCalls);
  }

  /** The run stopped because the pool ran dry. */
  predicate PoolRanDry(cfg: Config, st: State)
    decreases Remaining(st.world)
  {
    PoolStops(cfg, st) || (var t := Turn(cfg, st); t.Again? && PoolRanDry(cfg, t.st))
  }

  /** A run that was neither cancelled nor stopped by the pool is the undisturbed one. */
  lemma {:induction false} RunCalmed(cfg: Config, st: State)
    requires Steady(st.world) && Run(cfg, st).fault != Some(Canceled) && !PoolRanDry(cfg, st)
    ensures var run := Run(cfg, st); Run(cfg, CalmedState(st)) == Ending(run.fault, CalmedState(run.st))
    decreases Remaining(st.world)
  {
    hide Turn, Steady, Undisturbed, Calmed, PoolStops, CalmedState;
    TurnIsCalm(cfg, st);
    TurnCalmed(cfg, st);
    if Turn(cfg, st).Again? {
      RunCalmed(cfg, Turn(cfg, st).st);
    }
  }
}
