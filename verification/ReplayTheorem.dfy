/** The mirrored run simulates the recorded one, turn by turn, and replay reproduces it: over every undisturbed run,
    whatever its client, tools and policy did, and over every order its tools are dispatched in. */
module ReplayTheorem {

  import opened Decimal
  import opened Chat
  import opened Pairing
  import opened Triggers
  import opened Record
  import opened ReplayClient
  import opened ReplayScan
  import opened ReplayTools
  import opened ReplayTurn
  import opened ReplayToolSim
  import opened ResumeClient
  import opened ResumeToolSim
  import opened Worlds
  import opened Loop
  import opened LoopTurns
  import opened LoopLog
  import opened LoopPasses
  import opened ReplayAlign
  import opened ReplaySim

  // ----- What the record of a run on a steady world looks like -----

  lemma ToolPhaseTyped(cfg: Config, st: State, calls: seq<ToolCall>)
    requires Steady(st.world) && RunsTyped(Runs(st.log), st.world.tools) && (forall c | c in calls :: c.id != "")
    ensures var t := ToolPhase(cfg, st, calls); RunsTyped(Runs(t.st.log), st.world.tools) && Calm(st.world, t.st.world)
  {
    hide Steady, Undisturbed, ExecuteTools, Results, Scan, UnknownAnswered, IsUnknownToolRun, Stop, RecordOf,
         Cancelled;
    SteadyIsLive(st.world);
    ToolsAreCalm(st.world, calls, cfg.parallel, cfg.accepts, cfg.outputMax);
    var (rs, w) := ExecuteTools(st.world, calls, cfg.parallel, cfg.accepts, cfg.outputMax);
    var st0 := st.(world := w);
    ResultsLog(st0, calls, rs);
    var after := Results(st0, calls, rs);
    var st2 := after.(world := Cancelled(w).1);
    LooksAreCalm(w);
    CalmOn(st.world, w, st2.world);
    StopGrows(cfg, st2, TokenBudget);
    CalmOn(st.world, st2.world, Stop(cfg, st2, TokenBudget).st.world);
    var tools, more := st.world.tools, TurnRuns(st0.iterations, Answered(st0.log) - 1, calls, rs);
    forall i | 0 <= i < |Runs(after.log)| && Runs(after.log)[i].run.call.name !in tools
      ensures IsUnknownToolRun(Runs(after.log)[i].run)
    {
      var k := i - |Runs(st.log)|;
      if k >= 0 {
        assert Runs(after.log)[i] == more[k];
        UnknownIsTyped(tools, calls[k], rs[k]);
      }
    }
  }

  lemma UnknownIsTyped(tools: seq<string>, call: ToolCall, res: ToolRes)
    requires UnknownAnswered(tools, call, res) && call.name !in tools
    ensures IsUnknownToolRun(RecordOf(call, res))
  {
  }

  lemma BodyTyped(cfg: Config, st: State)
    requires Steady(st.world) && RunsTyped(Runs(st.log), st.world.tools)
    ensures var t := Body(cfg, st); RunsTyped(Runs(t.st.log), st.world.tools) && Calm(st.world, t.st.world)
  {
    hide Steady, Undisturbed, Scan, DrainInto, MaybeCompact, CompleteOnce, NoCalls, ToolPhase, IsUnknownToolRun;
    SteadyIsLive(st.world);
    DrainGrows(st);
    var st1 := DrainInto(st).1;
    MaybeCompactGrows(cfg, st1);
    var m := MaybeCompact(cfg, st1);
    CompleteOnceGrows(cfg, m.st, false);
    var c := CompleteOnce(cfg, m.st, false);
    CalmOn(st.world, st1.world, m.st.world);
    CalmOn(st.world, m.st.world, c.st.world);
    SteadyIsLive(c.st.world);
    if m.Kept? && c.Completed? {
      if c.resp.toolCalls == [] {
        NoCallsWrites(cfg, st, c.st, c.resp);
      } else {
        ServedCallsAreNamed(cfg, m.st, false);
        ToolPhaseTyped(cfg, c.st, c.resp.toolCalls);
        CalmOn(st.world, c.st.world, ToolPhase(cfg, c.st, c.resp.toolCalls).st.world);
      }
    }
  }

  lemma TurnTyped(cfg: Config, st: State)
    requires Steady(st.world) && RunsTyped(Runs(st.log), st.world.tools)
    ensures var t := Turn(cfg, st); RunsTyped(Runs(t.st.log), st.world.tools) && Calm(st.world, t.st.world)
  {
    hide Steady, Undisturbed, Scan, Body, Stop, IsUnknownToolRun, Cancelled, PoolExhausted;
    SteadyIsLive(st.world);
    var w := PoolExhausted(st.world).1;
    var w1 := Cancelled(w).1;
    LooksAreCalm(st.world);
    LooksAreCalm(w);
    CalmOn(st.world, w, w1);
    StopGrows(cfg, st, MaxIterations);
    StopGrows(cfg, st, TokenBudget);
    StopGrows(cfg, st.(world := w), BudgetPool);
    CalmOn(st.world, w, Stop(cfg, st.(world := w), BudgetPool).st.world);
    BodyTyped(cfg, st.(world := w1));
    CalmOn(st.world, w1, Body(cfg, st.(world := w1)).st.world);
  }

  lemma {:induction false} RunTyped(cfg: Config, st: State)
    requires Steady(st.world) && RunsTyped(Runs(st.log), st.world.tools)
    ensures RunsTyped(Runs(Run(cfg, st).st.log), st.world.tools)
    decreases Remaining(st.world)
  {
    hide Steady, Undisturbed, Scan, Turn, RunsTyped;
    TurnTyped(cfg, st);
    var t := Turn(cfg, st);
    if t.Again? {
      RunTyped(cfg, t.st);
    }
  }

  // ----- The simulation -----

  /** The record: what the mirrored run relies on. A replay, unlike a resumed run, gives no rewrite back. */
  predicate GoodRecord(r: Recording, tools: seq<string>) {
    && RunsTyped(Runs(r.events), tools) && Scan(r.events).offered == tools
    && (forall i :: 0 <= i < |r.events| ==> DistinctCalls(r.events[i]))
    && (r.behind.None? ==> AsAsked(Runs(r.events)))
  }

  /** No call on record was dispatched with arguments other than the model's. */
  predicate AsAsked(runs: seq<RunAt>) {
    forall i :: 0 <= i < |runs| ==> runs[i].run.dispatchedArgs == None
  }

  /** The calls of a served response carry distinct ids. */
  predicate DistinctCalls(ev: Event) {
    ev.Completion? && !ev.purpose && ev.reply.Answer? ==> DistinctIds(ev.reply.resp.toolCalls)
  }

  predicate TurnReplays(t: Turned) {
    t.Broke? ==> t.fault != CompletionFailed && t.fault != CompactionFailed
  }

  /** What the rest of the record says about the end of a turn. */
  predicate Continues(t: Turned, r: Recording) {
    FutureOk(t.st, r) && (!t.Again? ==> NextNotPurpose(t.st.log, r.events))
  }

  ghost predicate MirrorsTurn(t: Turned, t': Turned, r: Recording) {
    && Rel(t.st, t'.st, r)
    && (t.Again? ==> t'.Again? && Closed(t.st.log))
    && (t.Ended? ==> t'.Ended?)
    && (t.Broke? ==> t'.Broke? && t'.fault == t.fault)
  }

  /** A change of bookkeeping fields alone. */
  lemma FieldsSim(st: State, st': State, r: Recording, truncation: Truncation, finalized: bool, only: bool, nudges: nat)
    requires Rel(st, st', r)
    ensures Rel(st.(truncation := truncation), st'.(truncation := truncation), r)
    ensures var t := st.triggers.(stubOnly := only);
            Rel(st.(finalized := finalized, triggers := t), st'.(finalized := finalized, triggers := t), r)
    ensures Rel(st.(nudges := nudges), st'.(nudges := nudges), r)
  {
    hide Rel, TailIds, Scan, After;
    RelSame(st, st', r);
    RelArmed(st, st', r);
    RelFields(st, st', st.(truncation := truncation), r);
    RelFields(st, st', st.(finalized := finalized, triggers := st.triggers.(stubOnly := only)), r);
    RelFields(st, st', st.(nudges := nudges), r);
  }

  lemma FinalTurnSim(cfg: Config, st: State, st': State, reason: Truncation, r: Recording)
    requires Rel(st, st', r) && Closed(st.log)
    requires var c := FinalTurn(cfg, st, reason); Left(c, r) && NextNotPurpose(c.st.log, r.events)
    ensures Mirrors(FinalTurn(cfg, st, reason), FinalTurn(cfg, st', reason), r)
  {
    hide Rel, MaybeCompact, CompleteOnce, Closed, Scan, Covers, Steady, Undisturbed;
    RelSame(st, st', r);
    var m := TextMessage(User, cfg.finalizePrompt);
    var t := st.triggers.(stubOnly := reason.TokenBudget? || reason.BudgetPool?);
    AppendSim(st, st', m, "", r);
    FieldsSim(Append(st, m), Append(st', m), r, NotTruncated, true, t.stubOnly, 0);
    var st1, st1' := Append(st, m).(finalized := true, triggers := t),
      Append(st', m).(finalized := true, triggers := t);
    var k := MaybeCompact(cfg, st1);
    CompleteOnceGrows(cfg, k.st, true);
    var c := CompleteOnce(cfg, k.st, true);
    if k.Kept? {
      CoversOn(k.st, c.st, r);
    }
    CoversMeans(r, k.st);
    MaybeCompactSim(cfg, st1, st1', r);
    CompleteOnceSim(cfg, k.st, MaybeCompact(cfg, st1').st, r, true);
  }

  lemma StopSim(cfg: Config, st: State, st': State, reason: Truncation, r: Recording)
    requires Rel(st, st', r) && Closed(st.log)
    requires var t := Stop(cfg, st, reason); TurnReplays(t) && Covers(r, t.st) && NextNotPurpose(t.st.log, r.events)
    ensures MirrorsTurn(Stop(cfg, st, reason), Stop(cfg, st', reason), r)
  {
    hide Rel, FinalTurn, Closed, Covers;
    RelSame(st, st', r);
    if cfg.finalizePrompt == "" || st.finalized {
      FieldsSim(st, st', r, reason, false, false, 0);
    } else {
      var c := FinalTurn(cfg, st, reason);
      CoversSame(c.st, Stop(cfg, st, reason).st, r);
      FinalTurnSim(cfg, st, st', reason, r);
      var c' := FinalTurn(cfg, st', reason);
      FieldsSim(c.st, c'.st, r, reason, false, false, 0);
    }
  }

  /** A mirrored state with the turn's completion just served and its calls to run. */
  ghost predicate AtCalls(st: State, st': State, calls: seq<ToolCall>, r: Recording) {
    && Rel(st, st', r) && st.world.Live? && GoodRecord(r, st.world.tools)
    && calls != [] && (forall c | c in calls :: c.id != "") && DistinctIds(calls)
    && Scan(st.log).pending == []
    && st.messages != [] && st.messages[|st.messages| - 1].role.Assistant?
    && (forall i :: 0 <= i < |Runs(st.log)| ==>
          Runs(st.log)[i].step < st.iterations && Runs(st.log)[i].resp < Answered(st.log) - 1)
  }

  lemma AtTurnOf(st: State, st': State, calls: seq<ToolCall>, rs: seq<ToolRes>, after: State, r: Recording)
    requires AtCalls(st, st', calls, r) && |rs| == |calls|
    requires after.iterations == st.iterations && FutureOk(after, r)
    requires Runs(after.log) == Runs(st.log) + TurnRuns(st.iterations, Answered(st.log) - 1, calls, rs)
    requires Answered(after.log) == Answered(st.log)
    ensures var a, t := Runs(st.log), TurnRuns(st.iterations, Answered(st.log) - 1, calls, rs);
            && |a| + |t| <= |Runs(r.events)|
            && AtTurn(RcOf(st'.world), st.world.tools, a, t, Runs(r.events)[|a| + |t|..], st.iterations, calls)
            && Runs(r.events) == a + t + Runs(r.events)[|a| + |t|..]
  {
    hide Scan, Groups, RecordOf, TailIds, PendingOk, DistinctIds, IsUnknownToolRun, UsedIs, DistinctCalls, Armed,
         ResumeOk, Echo, Covers;
    CoversMeans(r, after);
    ScanPrefix(after.log, r.events);
    var a, t := Runs(st.log), TurnRuns(st.iterations, Answered(st.log) - 1, calls, rs);
    var c := Runs(r.events)[|a| + |t|..];
    assert Runs(r.events) == a + t + c;
    forall i | 0 <= i < |c| ensures c[i].step > st.iterations && c[i].resp > Answered(st.log) - 1 {
      assert c[i] == Runs(r.events)[|a| + |t| + i];
    }
    SteadyIsLive(st.world);
  }

  /** The mirrored turn: the same feedback, and a world past the turn. */
  ghost predicate TurnMirrored(st: State, w: World, rs: seq<ToolRes>, rs': seq<ToolRes>, w': World,
                               calls: seq<ToolCall>,
                               runs: seq<RunAt>) {
    && !w.Live? && !w'.Live? && (w'.Replaying? <==> w.Replaying?) && |rs'| == |rs| == |calls|
    && RcOf(w') == RcOf(w).(gi := RcOf(w').gi, used := RcOf(w').used) && UsedIs(RcOf(w'), runs)
    && (w.Resuming? ==>
          && w'.live == w.live && w'.rs.strict == w.rs.strict && w'.rs.seed == w.rs.seed
          && !w'.rs.diverged && !w'.rs.liveActive && MarksOf(w'.rs, runs) && (w.orders == [] ==> w'.orders == []))
    && forall i :: 0 <= i < |calls| ==> Fed(w, calls[i], rs[i], rs'[i])
  }

  lemma AskedTurn(runs: seq<RunAt>, a: seq<RunAt>, t: seq<RunAt>, c: seq<RunAt>, tools: seq<string>)
    requires runs == a + t + c && AsAsked(runs)
    ensures Unrewritten(tools, t)
  {
    assert forall i :: 0 <= i < |t| ==> t[i] == runs[|a| + i];
  }

  lemma TurnIsMirrored(cfg: Config, st: State, st': State, calls: seq<ToolCall>, rs: seq<ToolRes>, r: Recording,
                       a: seq<RunAt>, t: seq<RunAt>, c: seq<RunAt>)
    requires AtCalls(st, st', calls, r) && |rs| == |calls| == |t|
    requires a == Runs(st.log) && t == TurnRuns(st.iterations, Answered(st.log) - 1, calls, rs)
    requires AtTurn(RcOf(st'.world), st.world.tools, a, t, c, st.iterations, calls) && Runs(r.events) == a + t + c
    requires forall i :: 0 <= i < |calls| ==> LiveResult(st.world.tools, calls[i], rs[i], cfg.accepts)
    ensures var (rs', w') := ExecuteTools(st'.world, calls, cfg.parallel, cfg.accepts, cfg.outputMax);
            TurnMirrored(st, st'.world, rs, rs', w', calls, a + t)
  {
    hide Steady, Undisturbed, ExecuteTools, Scan, LiveResult, RecordOf, AtTurn, Groups, TailIds, DistinctIds, SameFeed,
         GoodRecord, UsedIs, MarksOf, Aligned, PendingOk, Armed, Echo, AllHarmless, Strict;
    var tools := st.world.tools;
    if st'.world.Replaying? {
      GoodMeans(r, tools);
      AskedTurn(Runs(r.events), a, t, c, tools);
      ReplayedTurn(st'.world, tools, a, t, c, st.iterations, calls, rs, cfg.parallel, cfg.accepts, cfg.outputMax);
    } else {
      ResumedTurn(st'.world, tools, a, t, c, st.iterations, calls, rs, cfg.parallel, cfg.accepts, cfg.outputMax);
    }
  }

  /** The results, their events and their messages are the recorded ones. */
  lemma ExecuteSim(cfg: Config, st: State, st': State, calls: seq<ToolCall>, r: Recording)
    requires AtCalls(st, st', calls, r)
    requires FutureOk(Results(st.(world := ExecuteTools(st.world, calls, cfg.parallel, cfg.accepts, cfg.outputMax).1),
                              calls,
                              ExecuteTools(st.world, calls, cfg.parallel, cfg.accepts, cfg.outputMax).0), r)
    ensures var (rs, w) := ExecuteTools(st.world, calls, cfg.parallel, cfg.accepts, cfg.outputMax);
            var (rs', w') := ExecuteTools(st'.world, calls, cfg.parallel, cfg.accepts, cfg.outputMax);
            var after, after' := Results(st.(world := w), calls, rs), Results(st'.(world := w'), calls, rs');
            Rel(after, after', r) && Closed(after.log)
  {
    hide Steady, Undisturbed, ExecuteTools, Results, Scan, LiveResult, AtTurn, TailIds, DistinctIds, TurnMirrored,
         GoodRecord, Rel, Closed, PendingOk, FutureOk, Echo;
    RelSame(st, st', r);
    LiveTurn(st.world, calls, cfg.parallel, cfg.accepts, cfg.outputMax);
    var (rs, w) := ExecuteTools(st.world, calls, cfg.parallel, cfg.accepts, cfg.outputMax);
    var after := Results(st.(world := w), calls, rs);
    ResultsLog(st.(world := w), calls, rs);
    AtTurnOf(st, st', calls, rs, after, r);
    var a, t := Runs(st.log), TurnRuns(st.iterations, Answered(st.log) - 1, calls, rs);
    TurnIsMirrored(cfg, st, st', calls, rs, r, a, t, Runs(r.events)[|a| + |t|..]);
    FutureCovers(after, r);
    MirroredResults(st, st', calls, rs, w, ExecuteTools(st'.world, calls, cfg.parallel, cfg.accepts, cfg.outputMax).0,
                    ExecuteTools(st'.world, calls, cfg.parallel, cfg.accepts, cfg.outputMax).1, r);
  }

  lemma FutureCovers(st: State, r: Recording)
    requires FutureOk(st, r)
    ensures st.log <= r.events && st.passes <= r.passes
  {
    hide Scan;
  }

  lemma MirroredResults(st: State, st': State, calls: seq<ToolCall>, rs: seq<ToolRes>, w: World, rs': seq<ToolRes>,
                        w': World, r: Recording)
    requires AtCalls(st, st', calls, r) && |rs| == |calls| && Undisturbed(w) && w.Live? && w.tools == st.world.tools
    requires Results(st.(world := w), calls, rs).log <= r.events
    requires TurnMirrored(st, st'.world, rs, rs', w', calls,
                          Runs(st.log) + TurnRuns(st.iterations, Answered(st.log) - 1, calls, rs))
    ensures Rel(Results(st.(world := w), calls, rs), Results(st'.(world := w'), calls, rs'), r)
    ensures Closed(Results(st.(world := w), calls, rs).log)
  {
    hide Steady, Undisturbed, Results, Scan, RecordOf, TailIds, DistinctIds, GoodRecord, After, WorldOk, Echo, Rel,
         Armed, TurnMirrored, SameFeed;
    var st0 := st.(world := w);
    var after := Results(st0, calls, rs);
    RelSame(st, st', r);
    RelArmed(st, st', r);
    TurnPending(st, calls, rs, w);
    ResultsSamePasses(st0, calls, rs);
    ResultsKeepUsage(st0, calls, rs);
    ArmedSame(r.start, st, after);
    MirroredWorld(st, st', calls, rs, w, rs', w', r);
    MirroredFeed(st, st'.world, rs, rs', w', calls,
                 Runs(st.log) + TurnRuns(st.iterations, Answered(st.log) - 1, calls, rs));
    ResultsEcho(st0, w', st'.run, calls, rs, rs');
    EchoWorlds(st, st'.world, w', st'.run, w);
    EchoWorld(after, w', st'.run, w);
    RelIs(after, Results(st'.(world := w'), calls, rs'), r);
  }

  lemma RelIs(st: State, st': State, r: Recording)
    requires !st'.world.Live? && st' == Echo(st, st'.world, st'.run)
    requires Undisturbed(st.world) && PendingOk(st) && Armed(r.start, st) && WorldOk(st, st'.world, r)
    ensures Rel(st, st', r)
  {
    hide Echo, Steady, Undisturbed, PendingOk, Armed, WorldOk;
  }

  lemma EchoWorlds(st: State, w0: World, w: World, run: string, live: World)
    requires !w.Live? && !w0.Live? && (w.Replaying? <==> w0.Replaying?)
    ensures Echo(st, w0, run).(world := w) == Echo(st.(world := live), w, run)
  {
    hide Free, AllUnpaid;
  }

  lemma MirroredFeed(st: State, w: World, rs: seq<ToolRes>, rs': seq<ToolRes>, w': World, calls: seq<ToolCall>,
                     runs: seq<RunAt>)
    requires TurnMirrored(st, w, rs, rs', w', calls, runs)
    ensures |rs'| == |rs| == |calls| && forall i :: 0 <= i < |calls| ==> Fed(w', calls[i], rs[i], rs'[i])
    ensures !w.Live? && !w'.Live? && (w'.Replaying? <==> w.Replaying?)
  {
    hide SameFeed, UsedIs, MarksOf;
  }

  /** The turn's results are what is pending, and no summary is open. */
  lemma TurnPending(st: State, calls: seq<ToolCall>, rs: seq<ToolRes>, w: World)
    requires |rs| == |calls| && calls != [] && Scan(st.log).pending == []
    requires st.messages != [] && st.messages[|st.messages| - 1].role.Assistant?
    ensures var after := Results(st.(world := w), calls, rs); PendingOk(after) && Closed(after.log)
  {
    hide Results, Scan, RecordOf, TailIds, Flush;
    var st0 := st.(world := w);
    ResultsLog(st0, calls, rs);
    ResultsFeed(st0, calls, rs);
    assert calls[..|rs|] == calls;
    TailOfTurn(st.messages, calls, rs);
    assert [] + Ids(calls) == Ids(calls);
  }

  lemma MirroredWorld(st: State, st': State, calls: seq<ToolCall>, rs: seq<ToolRes>, w: World, rs': seq<ToolRes>,
                      w': World, r: Recording)
    requires AtCalls(st, st', calls, r) && |rs| == |calls| && Undisturbed(w) && w.Live? && w.tools == st.world.tools
    requires Results(st.(world := w), calls, rs).log <= r.events
    requires TurnMirrored(st, st'.world, rs, rs', w', calls,
                          Runs(st.log) + TurnRuns(st.iterations, Answered(st.log) - 1, calls, rs))
    ensures WorldOk(Results(st.(world := w), calls, rs), w', r)
  {
    hide Steady, Undisturbed, Results, Scan, RecordOf, DistinctIds, SameFeed, GoodRecord, UsedIs, Flush, MarksOf,
         AllHarmless, Strict, Aligned, PendingOk, Armed, Echo;
    var st0 := st.(world := w);
    ResultsLog(st0, calls, rs);
    ResultsKeepUsage(st0, calls, rs);
    AlignedAfter(RcOf(st'.world), RcOf(w'), st.log, Results(st0, calls, rs).log, r.events);
  }

  lemma {:induction false} ResultsKeepUsage(st: State, calls: seq<ToolCall>, results: seq<ToolRes>)
    requires |results| <= |calls|
    ensures Results(st, calls, results).usage == st.usage && Results(st, calls, results).world == st.world
  {
    hide RecordOf, ResMessage;
    if results != [] {
      ResultsKeepUsage(st, calls, results[..|results| - 1]);
    }
  }

  lemma AlignedAfter(rc: Replay, rc': Replay, log: seq<Event>, after: seq<Event>, r: seq<Event>)
    requires Aligned(rc, log, r) && after <= r
    requires rc' == rc.(gi := rc'.gi, used := rc'.used) && UsedIs(rc', Runs(after))
    requires Answered(after) == Answered(log) && Flush(Scan(after)).summaries == Flush(Scan(log)).summaries
    ensures Aligned(rc', after, r)
  {
    hide Scan, Groups, Flush, UsedIs;
  }

  // ----- The tool phase -----

  lemma ToolPhaseIs(cfg: Config, st: State, calls: seq<ToolCall>)
    requires (forall c | c in calls :: c.id != "") && Unstopped(ToolCheck(cfg, st, calls).world)
    ensures var a := ToolCheck(cfg, st, calls);
            ToolPhase(cfg, st, calls) == if OverBudget(cfg, Budgeted(a)) then Stop(cfg, a, TokenBudget) else Again(a)
  {
    hide ExecuteTools, Results, Stop, OverBudget, Budgeted;
    var a := ToolCheck(cfg, st, calls);
    assert a.(world := a.world) == a;
  }

  /** The world behind a mirrored state lets the run go on. */
  lemma MirrorGoesOn(st: State, st': State, r: Recording)
    requires Rel(st, st', r)
    ensures var w := st'.world;
            Unstopped(w) && Cancelled(w) == (false, w) && Drain(w) == ([], w) && PoolExhausted(w) == (false, w)
  {
    hide Aligned, TailIds, Scan, Done, After, MarksOf, Echo, Steady, Undisturbed, PendingOk, AllHarmless;
    if st'.world.Resuming? {
      QuietMeans(st'.world.live);
    }
  }

  lemma CheckIsCalm(cfg: Config, st: State, calls: seq<ToolCall>)
    requires Undisturbed(st.world) && (forall c | c in calls :: c.id != "")
    ensures var a := ToolCheck(cfg, st, calls); Calm(st.world, a.world) && Unstopped(a.world)
  {
    hide Steady, Undisturbed, ExecuteTools, Results, Scan, LiveResult;
    SteadyIsLive(st.world);
    ToolsAreCalm(st.world, calls, cfg.parallel, cfg.accepts, cfg.outputMax);
    NeverCancelled(ExecuteTools(st.world, calls, cfg.parallel, cfg.accepts, cfg.outputMax).1);
  }

  lemma CheckSim(cfg: Config, st: State, st': State, calls: seq<ToolCall>, r: Recording)
    requires AtCalls(st, st', calls, r) && FutureOk(ToolCheck(cfg, st, calls), r)
    ensures Rel(ToolCheck(cfg, st, calls), ToolCheck(cfg, st', calls), r) && Closed(ToolCheck(cfg, st, calls).log)
  {
    hide Rel, ExecuteTools, Results, Scan, Steady, Undisturbed, FutureOk, DistinctIds, GoodRecord, Closed;
    ExecuteSim(cfg, st, st', calls, r);
  }

  lemma ToolPhaseSim(cfg: Config, st: State, st': State, calls: seq<ToolCall>, r: Recording)
    requires AtCalls(st, st', calls, r)
    requires var t := ToolPhase(cfg, st, calls); TurnReplays(t) && Continues(t, r)
    ensures MirrorsTurn(ToolPhase(cfg, st, calls), ToolPhase(cfg, st', calls), r)
  {
    hide Rel, ToolCheck, ToolPhase, Scan, Stop, Steady, Undisturbed, FutureOk, DistinctIds, GoodRecord, Closed,
         Unstopped;
    RelSame(st, st', r);
    CheckIsCalm(cfg, st, calls);
    ToolPhaseIs(cfg, st, calls);
    var a := ToolCheck(cfg, st, calls);
    StopGrows(cfg, a, TokenBudget);
    if OverBudget(cfg, Budgeted(a)) {
      FutureBack(a, Stop(cfg, a, TokenBudget).st, r);
      FutureMeans(Stop(cfg, a, TokenBudget).st, r);
    }
    CheckSim(cfg, st, st', calls, r);
    var a' := ToolCheck(cfg, st', calls);
    MirrorGoesOn(a, a', r);
    ToolPhaseIs(cfg, st', calls);
    RelSame(a, a', r);
    if OverBudget(cfg, Budgeted(a)) {
      StopSim(cfg, a, a', TokenBudget, r);
    }
  }

  lemma FutureMeans(st: State, r: Recording)
    requires FutureOk(st, r)
    ensures Covers(r, st)
  {
    hide Scan;
  }

  // ----- One turn -----

  lemma NoCallsSim(cfg: Config, st: State, st': State, resp: Response, resp': Response, r: Recording)
    requires Rel(st, st', r) && Closed(st.log) && SameAnswer(resp, resp')
    ensures MirrorsTurn(NoCalls(cfg, st, resp), NoCalls(cfg, st', resp'), r)
  {
    hide Rel, Scan, Steady, Undisturbed, Closed, Drain, Echo;
    RelSame(st, st', r);
    NeverCancelled(st.world);
    MirrorGoesOn(st, st', r);
    assert st.(world := st.world) == st && st'.(world := st'.world) == st';
    var only := st.triggers.stubOnly;
    FieldsSim(st, st', r, OutputCap, false, only, 0);
    FieldsSim(st, st', r, NoAnswer, false, only, st.nudges + 1);
    AppendSim(st.(nudges := st.nudges + 1), st'.(nudges := st.nudges + 1),
              TextMessage(User, cfg.prompts.emptyTurnNudge), "", r);
  }

  /** A completed turn ends its history with the assistant's. */
  lemma CompleteOnceAppends(cfg: Config, st: State, final: bool)
    ensures var c := CompleteOnce(cfg, st, final);
            c.Completed? ==> c.st.messages != [] && c.st.messages[|c.st.messages| - 1].role.Assistant?
  {
    hide CompleteRecovering, Stitch;
  }

  lemma CallsSim(cfg: Config, st: State, m: State, m': State, r: Recording)
    requires Rel(m, m', r) && GoodRecord(r, m.world.tools) && PastOk(st) && Grew(st, m)
    requires var c := CompleteOnce(cfg, m, false);
             && c.Completed? && c.resp.toolCalls != [] && Covers(r, c.st)
             && Mirrors(c, CompleteOnce(cfg, m', false), r) && Scan(c.st.log).pending == []
    ensures var c, c' := CompleteOnce(cfg, m, false), CompleteOnce(cfg, m', false);
            AtCalls(c.st, c'.st, c.resp.toolCalls, r)
  {
    hide Rel, Steady, Undisturbed, Scan, CompleteOnce, DistinctIds, Covers;
    RelSame(m, m', r);
    ServedCallsAreNamed(cfg, m, false);
    CompleteOnceGrows(cfg, m, false);
    CompleteOnceAppends(cfg, m, false);
    RunsFollowResponses(st.log);
    var c := CompleteOnce(cfg, m, false);
    RelSame(c.st, CompleteOnce(cfg, m', false).st, r);
    CoversMeans(r, c.st);
    var last := c.st.log[|c.st.log| - 1];
    assert r.events[|c.st.log| - 1] == last;
    assert DistinctCalls(last);
  }

  /** The turn's boundary and its completion. */
  lemma CompletionSim(cfg: Config, st: State, st': State, r: Recording)
    requires Rel(st, st', r) && Closed(st.log)
    requires MaybeCompact(cfg, st).Kept? && Left(CompleteOnce(cfg, MaybeCompact(cfg, st).st, false), r)
    ensures var m, m' := MaybeCompact(cfg, st), MaybeCompact(cfg, st');
            var c := CompleteOnce(cfg, m.st, false);
            && m'.Kept? && Rel(m.st, m'.st, r) && Mirrors(c, CompleteOnce(cfg, m'.st, false), r)
            && (c.Completed? ==> Closed(c.st.log) && Scan(c.st.log).pending == [])
  {
    hide Rel, Steady, Undisturbed, Scan, MaybeCompact, CompleteOnce, Closed, Covers;
    var m := MaybeCompact(cfg, st);
    CompleteOnceGrows(cfg, m.st, false);
    var c := CompleteOnce(cfg, m.st, false);
    CoversOn(m.st, c.st, r);
    CoversMeans(r, m.st);
    CoversMeans(r, c.st);
    MaybeCompactSim(cfg, st, st', r);
    CompleteOnceSim(cfg, m.st, MaybeCompact(cfg, st').st, r, false);
  }

  /** What a turn has written once its completion is served, seen from its end. */
  lemma BodyPrefix(cfg: Config, st: State, r: Recording)
    requires Undisturbed(st.world) && DrainInto(st) == (false, st)
    requires var t := Body(cfg, st); TurnReplays(t) && Continues(t, r)
    ensures MaybeCompact(cfg, st).Kept? && Left(CompleteOnce(cfg, MaybeCompact(cfg, st).st, false), r)
  {
    hide Steady, Undisturbed, Scan, MaybeCompact, CompleteOnce, NoCalls, ToolPhase, DrainInto, Covers;
    var m := MaybeCompact(cfg, st);
    var c := CompleteOnce(cfg, m.st, false);
    FutureMeans(Body(cfg, st).st, r);
    if m.Kept? && c.Completed? {
      if c.resp.toolCalls == [] {
        GrewSelf(c.st, c.st);
        NoCallsWrites(cfg, c.st, c.st, c.resp);
        CoversOn(c.st, NoCalls(cfg, c.st, c.resp).st, r);
      } else {
        ServedCallsAreNamed(cfg, m.st, false);
        ToolPhasePrefix(cfg, c.st, c.resp.toolCalls);
        CoversOn(c.st, ToolPhase(cfg, c.st, c.resp.toolCalls).st, r);
      }
    }
  }

  lemma ToolPhasePrefix(cfg: Config, st: State, calls: seq<ToolCall>)
    requires forall c | c in calls :: c.id != ""
    ensures Covers(RecordingOf(ToolPhase(cfg, st, calls).st), st)
  {
    hide ExecuteTools, Results, Stop, Scan, Steady, Undisturbed, Covers;
    var (rs, w) := ExecuteTools(st.world, calls, cfg.parallel, cfg.accepts, cfg.outputMax);
    ResultsCover(st.(world := w), calls, rs);
    var after := Results(st.(world := w), calls, rs);
    CoversSame(st, st.(world := w), RecordingOf(after));
    var st2 := after.(world := Cancelled(after.world).1);
    StopGrows(cfg, st2, TokenBudget);
    CoversOn(st, after, RecordingOf(st2));
    CoversOn(st, st2, RecordingOf(Stop(cfg, st2, TokenBudget).st));
  }

  /** Nothing is delivered between turns of undisturbed and mirrored runs. */
  lemma NothingDrained(st: State)
    requires Drain(st.world) == ([], st.world)
    ensures DrainInto(st) == (false, st)
  {
    hide Drain;
    assert st.(world := st.world) == st;
  }

  lemma BodySim(cfg: Config, st: State, st': State, r: Recording)
    requires Rel(st, st', r) && Closed(st.log) && PastOk(st) && GoodRecord(r, st.world.tools)
    requires var t := Body(cfg, st); TurnReplays(t) && Continues(t, r)
    ensures MirrorsTurn(Body(cfg, st), Body(cfg, st'), r)
  {
    hide Rel, Steady, Undisturbed, Scan, MaybeCompact, CompleteOnce, NoCalls, ToolPhase, Closed, GoodRecord, PastOk,
         DistinctIds, Covers, DrainInto, Drain, Echo;
    RelSame(st, st', r);
    NeverCancelled(st.world);
    MirrorGoesOn(st, st', r);
    NothingDrained(st);
    NothingDrained(st');
    BodyPrefix(cfg, st, r);
    CompletionSim(cfg, st, st', r);
    MaybeCompactGrows(cfg, st);
    var m, m' := MaybeCompact(cfg, st), MaybeCompact(cfg, st');
    var c, c' := CompleteOnce(cfg, m.st, false), CompleteOnce(cfg, m'.st, false);
    if c.Completed? {
      if c.resp.toolCalls == [] {
        NoCallsSim(cfg, c.st, c'.st, c.resp, c'.resp, r);
      } else {
        RelSame(m.st, m'.st, r);
        CallsSim(cfg, st, m.st, m'.st, r);
        ServedCallsAreNamed(cfg, m'.st, false);
        ToolPhaseSim(cfg, c.st, c'.st, c.resp.toolCalls, r);
      }
    }
  }

  lemma TurnSim(cfg: Config, st: State, st': State, r: Recording)
    requires Rel(st, st', r) && Closed(st.log) && PastOk(st) && GoodRecord(r, st.world.tools)
    requires var t := Turn(cfg, st); TurnReplays(t) && Continues(t, r)
    ensures MirrorsTurn(Turn(cfg, st), Turn(cfg, st'), r)
  {
    hide Rel, Steady, Undisturbed, Scan, Body, Stop, Closed, GoodRecord, PastOk, Cancelled, PoolExhausted, Covers,
         Echo;
    RelSame(st, st', r);
    NeverCancelled(st.world);
    MirrorGoesOn(st, st', r);
    FutureMeans(Turn(cfg, st).st, r);
    assert st.(world := st.world) == st && st'.(world := st'.world) == st';
    if cfg.maxIterations >= 0 && st.iterations >= cfg.maxIterations {
      StopSim(cfg, st, st', MaxIterations, r);
    } else if OverBudget(cfg, Budgeted(st)) {
      StopSim(cfg, st, st', TokenBudget, r);
    } else {
      BodySim(cfg, st, st', r);
    }
  }

  /** A whole recorded run: its record ends where it ended. */
  predicate Whole(r: Recording, run: Ending) {
    && run.fault != Some(CompletionFailed) && run.fault != Some(CompactionFailed)
    && r.events == run.st.log + [Finalize] && r.passes == run.st.passes
  }

  lemma {:induction false} RunSim(cfg: Config, st: State, st': State, r: Recording)
    requires Rel(st, st', r) && Closed(st.log) && PastOk(st) && GoodRecord(r, st.world.tools)
    requires Whole(r, Run(cfg, st))
    ensures Run(cfg, st').fault == Run(cfg, st).fault && Rel(Run(cfg, st).st, Run(cfg, st').st, r)
    decreases Remaining(st.world)
  {
    hide Rel, Steady, Undisturbed, Scan, Turn, Closed, GoodRecord, PastOk, FutureOk;
    var t := Turn(cfg, st);
    RelSame(st, st', r);
    TurnWritesForward(cfg, st);
    SteadyIsLive(st.world);
    TurnIsCalm(cfg, st);
    RunContinues(cfg, st, r);
    TurnSim(cfg, st, st', r);
    if t.Again? {
      RunSim(cfg, t.st, Turn(cfg, st').st, r);
    }
  }

  lemma TurnIsCalm(cfg: Config, st: State)
    requires Steady(st.world)
    ensures Calm(st.world, Turn(cfg, st).st.world)
  {
    hide Steady, Undisturbed, Scan, Stop, DrainInto, MaybeCompact, CompleteOnce, NoCalls, ToolPhase, Cancelled,
         PoolExhausted;
    var w := PoolExhausted(st.world).1;
    var w1 := Cancelled(w).1;
    LooksAreCalm(st.world);
    LooksAreCalm(w);
    CalmOn(st.world, w, w1);
    StopGrows(cfg, st, MaxIterations);
    StopGrows(cfg, st, TokenBudget);
    StopGrows(cfg, st.(world := w), BudgetPool);
    var st0 := st.(world := w1);
    DrainGrows(st0);
    var st1 := DrainInto(st0).1;
    MaybeCompactGrows(cfg, st1);
    var m := MaybeCompact(cfg, st1);
    CompleteOnceGrows(cfg, m.st, false);
    var c := CompleteOnce(cfg, m.st, false);
    CalmOn(st.world, w1, st1.world);
    CalmOn(st.world, st1.world, m.st.world);
    CalmOn(st.world, m.st.world, c.st.world);
    if m.Kept? && c.Completed? {
      if c.resp.toolCalls == [] {
        GrewSelf(c.st, c.st);
        NoCallsWrites(cfg, c.st, c.st, c.resp);
        CalmOn(st.world, c.st.world, NoCalls(cfg, c.st, c.resp).st.world);
      } else {
        ServedCallsAreNamed(cfg, m.st, false);
        ToolPhaseIsCalm(cfg, c.st, c.resp.toolCalls);
        CalmOn(st.world, c.st.world, ToolPhase(cfg, c.st, c.resp.toolCalls).st.world);
      }
    }
    CalmOn(st.world, w, Stop(cfg, st.(world := w), BudgetPool).st.world);
  }

  lemma ToolPhaseIsCalm(cfg: Config, st: State, calls: seq<ToolCall>)
    requires Steady(st.world) && (forall c | c in calls :: c.id != "")
    ensures Calm(st.world, ToolPhase(cfg, st, calls).st.world)
  {
    hide Steady, Undisturbed, ExecuteTools, Results, Scan, Stop, Cancelled;
    ToolsAreCalm(st.world, calls, cfg.parallel, cfg.accepts, cfg.outputMax);
    var (rs, w) := ExecuteTools(st.world, calls, cfg.parallel, cfg.accepts, cfg.outputMax);
    LooksAreCalm(w);
    var st2 := Results(st.(world := w), calls, rs).(world := Cancelled(w).1);
    CalmOn(st.world, w, st2.world);
    StopGrows(cfg, st2, TokenBudget);
    CalmOn(st.world, st2.world, Stop(cfg, st2, TokenBudget).st.world);
  }

  /** The end of the first turn, seen from the end of the run. */
  lemma RunContinues(cfg: Config, st: State, r: Recording)
    requires Whole(r, Run(cfg, st))
    ensures var t := Turn(cfg, st); TurnReplays(t) && Continues(t, r)
  {
    hide Scan, Turn, FutureOk;
    var t := Turn(cfg, st);
    var run := Run(cfg, st);
    if t.Again? {
      RunWritesForward(cfg, t.st);
    } else {
      NothingAhead(run.st);
    }
    FinalizeWrites(t.st, run.st, r);
  }

  lemma NothingAhead(st: State)
    ensures FutureOk(st, RecordingOf(st))
  {
    hide Scan;
  }

  lemma FinalizeWrites(st: State, last: State, r: Recording)
    requires FutureOk(st, RecordingOf(last)) && r.events == last.log + [Finalize] && last.passes <= r.passes
    ensures FutureOk(st, r)
  {
    ScanSnoc(last.log, Finalize);
    hide Scan;
    assert Runs(r.events) == Runs(last.log);
    forall k | |st.log| <= k < |r.events| ensures !r.events[k].Start? {
      if k < |last.log| {
        assert r.events[k] == RecordingOf(last).events[k];
      }
    }
  }

  // ----- The theorem -----

  /** An undisturbed run, recorded. */
  function Recorded(cfg: Config, id: string, seed: seq<Message>, task: Message, w: World): (r: (Ending, seq<Event>))
    requires w.Live?
  {
    var run := Run(cfg, Begin(cfg, id, seed, task, w.tools, w));
    (run, run.st.log + [Finalize])
  }

  /** The record of a run that ended. */
  function WholeRecording(cfg: Config, run: Ending, behind: Option<World>): Recording {
    Recording(run.st.log + [Finalize], run.st.passes,
              NewTriggers(cfg.historyBudget, cfg.contextReserve, cfg.contextWindow), behind, false)
  }

  function Behind(w: World): Option<World> {
    if w.Resuming? then Some(w.live) else None
  }

  /** A record of one run: it begins with the run's own Start. */
  predicate StartsWith(r: seq<Event>, tools: seq<string>) {
    [Start(tools)] <= r && forall k :: 0 < k < |r| ==> !r[k].Start?
  }

  lemma {:induction false} OfferedStays(r: seq<Event>, tools: seq<string>)
    requires StartsWith(r, tools)
    ensures Scan(r).offered == tools
  {
    var n := |r| - 1;
    if n > 0 {
      OfferedStays(r[..n], tools);
    } else {
      assert r == [Start(tools)] && r[..0] == [];
    }
  }

  lemma RecordStarts(cfg: Config, id: string, seed: seq<Message>, task: Message, w: World)
    requires Steady(w)
    ensures w.Live? && StartsWith(Recorded(cfg, id, seed, task, w).1, w.tools)
    ensures RunsTyped(Runs(Recorded(cfg, id, seed, task, w).1), w.tools)
  {
    hide Steady, Undisturbed, Run, Trimmed, IsUnknownToolRun, Scan;
    SteadyIsLive(w);
    var st := Begin(cfg, id, seed, task, w.tools, w);
    ScanStart(w.tools);
    RunTyped(cfg, st);
    RunWritesForward(cfg, st);
    var last := Run(cfg, st).st;
    ScanFinalize(last.log);
    FutureMeans(st, RecordingOf(last));
    assert forall k :: 0 < k < |last.log| ==> !RecordingOf(last).events[k].Start?;
  }

  lemma ScanFinalize(log: seq<Event>)
    ensures Scan(log + [Finalize]) == Flush(Scan(log))
  {
    ScanSnoc(log, Finalize);
  }

  lemma ScanStart(tools: seq<string>)
    ensures Scan([Start(tools)]) == NOTHING_SCANNED.(offered := tools)
  {
    assert [Start(tools)][..0] == [];
  }

  /** Any beginning of a good record is one. */
  lemma PrefixIsGood(q: Recording, r: seq<Event>, tools: seq<string>)
    requires StartsWith(r, tools) && q.events <= r && q.events != [] && RunsTyped(Runs(r), tools)
    requires forall i :: 0 <= i < |q.events| ==> DistinctCalls(q.events[i])
    requires q.behind.None? ==> AsAsked(Runs(q.events))
    ensures StartsWith(q.events, tools) && GoodRecord(q, tools)
  {
    hide Scan, DistinctCalls, IsUnknownToolRun;
    OfferedStays(q.events, tools);
    ScanPrefix(q.events, r);
  }

  lemma GoodMeans(r: Recording, tools: seq<string>)
    requires GoodRecord(r, tools)
    ensures RunsTyped(Runs(r.events), tools) && Scan(r.events).offered == tools
    ensures r.behind.None? ==> AsAsked(Runs(r.events))
  {
    hide Scan, DistinctCalls, RunsTyped, AsAsked;
  }

  lemma GoodIsReplayable(q: seq<Event>, tools: seq<string>)
    requires RunsTyped(Runs(q), tools) && Scan(q).offered == tools && "" !in tools && Answered(q) > 0
    ensures NewReplay(q).Some?
  {
    hide Scan, Groups, IsUnknownToolRun, Unregistered, DistinctCalls;
    forall i: nat | i < |Runs(q)| && Unregistered(tools, Runs(q), Runs(q)[i].run.call.name)
      ensures IsUnknownToolRun(Runs(q)[i].run)
    {
      UnregisteredMeansUnknown(tools, Runs(q), i);
    }
  }

  lemma FreshIsAligned(rc: Replay, tools: seq<string>, r: seq<Event>)
    requires StartsWith(r, tools) && NewReplay(r) == Some(rc)
    ensures Aligned(rc, [Start(tools)], r)
  {
    hide Groups, Replayable, Scan;
    ScanStart(tools);
  }

  /** The mirrored run's client at its beginning. */
  predicate Fresh(w': World, tools: seq<string>, r: Recording) {
    && !w'.Live? && NewReplay(r.events) == Some(RcOf(w'))
    && (w'.Resuming? ==>
          NewResume(r.events) == Some(w'.rs) && r.behind == Some(w'.live) && w'.live.Live? && Quiet(w'.live) &&
            (r.inOrder ==> w'.orders == []) &&
            w'.live.tools == tools)
    && (w'.Replaying? ==> r.behind.None?)
  }

  lemma BeginAligned(cfg: Config, id: string, id': string, seed: seq<Message>, task: Message, w: World, w': World,
                     r: Recording)
    requires Undisturbed(w) && w.Live? && StartsWith(r.events, w.tools) && Fresh(w', w.tools, r)
    requires r.start == NewTriggers(cfg.historyBudget, cfg.contextReserve, cfg.contextWindow)
    requires w'.Resuming? ==> AllHarmless(r.start, r.passes)
    ensures var st, st' := Begin(cfg, id, seed, task, w.tools, w), Begin(cfg, id', seed, task, w.tools, w');
            Rel(st, st', r) && Closed(st.log) && PastOk(st)
  {
    hide Steady, Undisturbed, NewReplay, Scan, Trimmed, TailIds, AllHarmless, StartsWith, Aligned;
    FreshIsAligned(RcOf(w'), w.tools, r.events);
    ScanStart(w.tools);
    assert AllUnpaid([]) == [] && Free([Start(w.tools)]) == [Start(w.tools)];
  }

  /** The client ends clean: everything the record holds was served. */
  lemma EndsClean(rc: Replay, log: seq<Event>, r: seq<Event>)
    requires Aligned(rc, log, r) && r == log + [Finalize]
    ensures ReplayClean(rc)
  {
    ScanSnoc(log, Finalize);
    hide Scan, Groups, Unregistered;
    GroupsAreRuns(Scan(r).offered, Runs(r), Runs(r));
    forall g: nat, i: nat | g < |rc.groups| && i < |rc.groups[g].calls| ensures (g, i) in rc.used {
      assert GroupFrom(Scan(r).offered, Runs(r), Runs(r), rc.groups[g]);
      assert Done(Runs(log), rc.groups[g].resp);
    }
  }

  lemma RelAligned(st: State, st': State, r: Recording)
    requires Rel(st, st', r)
    ensures !st'.world.Live? && Aligned(RcOf(st'.world), st.log, r.events)
    ensures st'.world.Resuming? ==>
            st'.world.rs.seed == st.usage && r.behind == Some(st'.world.live) && !st'.world.rs.diverged
    ensures st'.world.Resuming? <==> r.behind.Some?
    ensures st'.world.Resuming? && r.inOrder ==> st'.world.orders == []
  {
    hide Aligned, Steady, Undisturbed, PendingOk, After, AllHarmless, MarksOf, Echo;
  }

  /** The record of a whole run mirrors on any fresh client over it. */
  lemma WholeRunMirrors(cfg: Config, id: string, id': string, seed: seq<Message>, task: Message, w: World, w': World)
    requires Undisturbed(w)
    requires var (run, r) := Recorded(cfg, id, seed, task, w);
             && Whole(WholeRecording(cfg, run, None), run)
             && (forall i :: 0 <= i < |r| ==> DistinctCalls(r[i])) && (!w'.Resuming? ==> AsAsked(Runs(r)))
             && var rec := WholeRecording(cfg, run, Behind(w'));
                Fresh(w', w.tools, rec) && (w'.Resuming? ==> AllHarmless(rec.start, rec.passes))
    ensures var run := Recorded(cfg, id, seed, task, w).0;
            var again := Run(cfg, Begin(cfg, id', seed, task, w.tools, w'));
            var rec := WholeRecording(cfg, run, Behind(w'));
            again.fault == run.fault && Rel(run.st, again.st, rec)
  {
    hide Steady, Undisturbed, Run, Begin, Scan, DistinctCalls, Rel, AllHarmless, Fresh, GoodRecord, StartsWith, PastOk,
         Closed;
    SteadyIsLive(w);
    var (run, r) := Recorded(cfg, id, seed, task, w);
    var rec := WholeRecording(cfg, run, Behind(w'));
    RecordStarts(cfg, id, seed, task, w);
    PrefixIsGood(rec, r, w.tools);
    BeginAligned(cfg, id, id', seed, task, w, w', rec);
    BeginWorld(cfg, id, seed, task, w);
    RunSim(cfg, Begin(cfg, id, seed, task, w.tools, w), Begin(cfg, id', seed, task, w.tools, w'), rec);
  }

  lemma BeginWorld(cfg: Config, id: string, seed: seq<Message>, task: Message, w: World)
    requires w.Live?
    ensures Begin(cfg, id, seed, task, w.tools, w).world == w
  {
  }

  /** Replay simulates the record. For every configuration, seed, task and undisturbed world, if the recorded
      run failed no completion and no compaction, its turns' call ids are distinct and no call was rewritten, then
        the record builds
      a replay client, and the loop run on it under any run id, its tools dispatched in any orders, ends the same way
      with the same history, outcome and events, the client reporting no divergence and nothing unreached. */
  lemma ReplayReproducesTheRun(cfg: Config, id: string, id': string, seed: seq<Message>, task: Message, w: World,
                               orders: seq<seq<nat>>)
    requires Undisturbed(w)
    requires var (run, r) := Recorded(cfg, id, seed, task, w);
             && run.fault != Some(CompletionFailed) && run.fault != Some(CompactionFailed)
             && (forall i :: 0 <= i < |r| ==> DistinctCalls(r[i]))
             && Answered(r) > 0 && AsAsked(Runs(r))
    ensures var (run, r) := Recorded(cfg, id, seed, task, w);
            && NewReplay(r).Some?
            && var again := Run(cfg, Begin(cfg, id', seed, task, w.tools, Replaying(NewReplay(r).value, orders)));
               && again.fault == run.fault
               && again.st == run.st.(world := again.st.world, run := again.st.run)
               && again.st.world.Replaying? && ReplayClean(again.st.world.rc)
  {
    hide Steady, Undisturbed, Run, Begin, Scan, NewReplay, DistinctCalls, ReplayClean, Rel, GoodRecord, StartsWith;
    SteadyIsLive(w);
    var (run, r) := Recorded(cfg, id, seed, task, w);
    RecordStarts(cfg, id, seed, task, w);
    var rec := WholeRecording(cfg, run, None);
    PrefixIsGood(rec, r, w.tools);
    GoodMeans(rec, w.tools);
    GoodIsReplayable(r, w.tools);
    var w' := Replaying(NewReplay(r).value, orders);
    WholeRunMirrors(cfg, id, id', seed, task, w, w');
    var again := Run(cfg, Begin(cfg, id', seed, task, w.tools, w'));
    RelSame(run.st, again.st, rec);
    RelAligned(run.st, again.st, rec);
    EndsClean(again.st.world.rc, run.st.log, r);
  }
}
