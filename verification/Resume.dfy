/** A resumed run (agent/resume.go:15-300): through the part of the run that is on record it stands, turn by turn,
    where the recorded run stood, having paid nothing, and its token-budget checks read what the recorded run's read. */
module Resume {

  import opened Decimal
  import opened Chat
  import opened Triggers
  import opened Record
  import opened ReplayClient
  import opened ReplayToolSim
  import opened ResumeClient
  import opened Worlds
  import opened Loop
  import opened LoopTurns
  import opened LoopLimits
  import opened LoopLog
  import opened LoopPasses
  import opened ReplayAlign
  import opened ReplaySim
  import opened ReplayTheorem
  import opened Interrupted

  // ----- A run on a steady world records no steering -----

  predicate Unsteered(log: seq<Event>) {
    forall k :: 0 <= k < |log| ==> !log[k].Steered?
  }

  lemma WroteUnsteered(a: seq<Event>, b: seq<Event>, final: bool)
    requires Unsteered(a) && Wrote(a, b, final)
    ensures Unsteered(b)
  {
    forall k | 0 <= k < |b| ensures !b[k].Steered? {
      if k < |a| {
        assert b[k] == a[k];
      } else {
        assert Asks(b[k], final);
      }
    }
  }

  lemma StopUnsteered(cfg: Config, st: State, reason: Truncation)
    requires Unsteered(st.log)
    ensures Unsteered(Stop(cfg, st, reason).st.log)
  {
    hide FinalTurn, Wrote;
    FinalTurnAsks(cfg, st, reason);
    WroteUnsteered(st.log, FinalTurn(cfg, st, reason).st.log, true);
  }

  lemma {:induction false} ResultsUnsteered(st: State, calls: seq<ToolCall>, results: seq<ToolRes>)
    requires Unsteered(st.log) && |results| <= |calls|
    ensures Unsteered(Results(st, calls, results).log)
  {
    hide RecordOf, ResMessage;
    if results != [] {
      ResultsUnsteered(st, calls, results[..|results| - 1]);
    }
  }

  lemma ToolPhaseUnsteered(cfg: Config, st: State, calls: seq<ToolCall>)
    requires Unsteered(st.log) && (forall c | c in calls :: c.id != "")
    ensures Unsteered(ToolPhase(cfg, st, calls).st.log)
  {
    hide ExecuteTools, Results, Stop, Unsteered, Cancelled;
    var (results, w) := ExecuteTools(st.world, calls, cfg.parallel, cfg.accepts, cfg.outputMax);
    ResultsUnsteered(st.(world := w), calls, results);
    StopUnsteered(cfg, Results(st.(world := w), calls, results).(world := Cancelled(w).1), TokenBudget);
  }

  lemma NoCallsUnsteered(cfg: Config, st: State, resp: Response)
    requires Unsteered(st.log) && Steady(st.world)
    ensures Unsteered(NoCalls(cfg, st, resp).st.log)
  {
    hide DrainInto, Steady;
    LooksAreCalm(st.world);
    NothingDrained(st);
  }

  lemma BodyUnsteered(cfg: Config, st: State)
    requires Unsteered(st.log) && Steady(st.world)
    ensures Unsteered(Body(cfg, st).st.log)
  {
    hide DrainInto, MaybeCompact, CompleteOnce, NoCalls, ToolPhase, Steady, Undisturbed, Unsteered, Wrote, Scan, Drain;
    LooksAreCalm(st.world);
    NothingDrained(st);
    MaybeCompactAsks(cfg, st, false);
    MaybeCompactGrows(cfg, st);
    var m := MaybeCompact(cfg, st);
    WroteUnsteered(st.log, m.st.log, false);
    CompleteOnceAsks(cfg, m.st, false);
    CompleteOnceGrows(cfg, m.st, false);
    var c := CompleteOnce(cfg, m.st, false);
    WroteUnsteered(m.st.log, c.st.log, false);
    if m.Kept? && c.Completed? {
      if c.resp.toolCalls == [] {
        NoCallsUnsteered(cfg, c.st, c.resp);
      } else {
        ServedCallsAreNamed(cfg, m.st, false);
        ToolPhaseUnsteered(cfg, c.st, c.resp.toolCalls);
      }
    }
  }

  lemma TurnUnsteered(cfg: Config, st: State)
    requires Unsteered(st.log) && Steady(st.world)
    ensures Unsteered(Turn(cfg, st).st.log)
  {
    hide Body, Stop, Steady, Undisturbed, Unsteered, Cancelled, PoolExhausted;
    var w := PoolExhausted(st.world).1;
    LooksAreCalm(st.world);
    LooksAreCalm(w);
    StopUnsteered(cfg, st, MaxIterations);
    StopUnsteered(cfg, st, TokenBudget);
    StopUnsteered(cfg, st.(world := w), BudgetPool);
    BodyUnsteered(cfg, st.(world := Cancelled(w).1));
  }

  lemma {:induction false} RunUnsteered(cfg: Config, st: State)
    requires Unsteered(st.log) && Steady(st.world)
    ensures Unsteered(Run(cfg, st).st.log)
    decreases Remaining(st.world)
  {
    hide Turn, Steady, Undisturbed, Unsteered;
    TurnUnsteered(cfg, st);
    TurnIsCalm(cfg, st);
    if Turn(cfg, st).Again? {
      RunUnsteered(cfg, Turn(cfg, st).st);
    }
  }

  // ----- Turn by turn -----

  /** What the mirroring needs of a state at the top of a turn. */
  ghost predicate InStep(st: State, st': State, r: Recording) {
    Rel(st, st', r) && Closed(st.log) && PastOk(st) && st.world.Live? && GoodRecord(r, st.world.tools)
  }

  lemma {:induction false} TurnsSim(cfg: Config, st: State, st': State, r: Recording, k: nat)
    requires InStep(st, st', r) && TurnsFrom(cfg, st, k).Some? && FutureOk(TurnsFrom(cfg, st, k).value, r)
    ensures TurnsFrom(cfg, st', k).Some? && InStep(TurnsFrom(cfg, st, k).value, TurnsFrom(cfg, st', k).value, r)
  {
    hide Rel, Steady, Undisturbed, Scan, Turn, Closed, GoodRecord, PastOk, FutureOk;
    if k > 0 {
      var s := TurnsFrom(cfg, st, k - 1).value;
      var t := Turn(cfg, s);
      TurnWritesForward(cfg, s);
      FutureChain(s, t.st, r);
      TurnsSim(cfg, st, st', r, k - 1);
      var s' := TurnsFrom(cfg, st', k - 1).value;
      RelSame(s, s', r);
      SteadyIsLive(s.world);
      TurnIsCalm(cfg, s);
      TurnSim(cfg, s, s', r);
      RelSame(t.st, Turn(cfg, s').st, r);
    }
  }

  /** The turn of an undisturbed run that gets to its tools, unfolded. */
  lemma CheckOf(cfg: Config, st: State)
    requires Drain(st.world) == ([], st.world) && Unstopped(st.world) && PoolExhausted(st.world) == (false, st.world)
    ensures var m := MaybeCompact(cfg, st);
            var c := CompleteOnce(cfg, m.st, false);
            && (c.Completed? ==> forall t | t in c.resp.toolCalls :: t.id != "")
            && (TurnCheck(cfg, st).Some? <==>
                  && !(cfg.maxIterations >= 0 && st.iterations >= cfg.maxIterations) && !OverBudget(cfg, Budgeted(st))
                  && m.Kept? && c.Completed? && c.resp.toolCalls != []
                  && !Cancelled(ToolCheck(cfg, c.st, c.resp.toolCalls).world).0)
    ensures TurnCheck(cfg, st).Some? ==>
              var m := MaybeCompact(cfg, st);
              var c := CompleteOnce(cfg, m.st, false);
              && (forall t | t in c.resp.toolCalls :: t.id != "")
              && TurnCheck(cfg, st).value == ToolCheck(cfg, c.st, c.resp.toolCalls)
              && Turn(cfg, st) == ToolPhase(cfg, c.st, c.resp.toolCalls)
  {
    hide MaybeCompact, CompleteOnce, ToolCheck, ToolPhase, Drain, Cancelled, PoolExhausted, Stop, NoCalls, DrainInto,
         Budgeted;
    NothingDrained(st);
    assert st.(world := st.world) == st;
    ServedCallsAreNamed(cfg, MaybeCompact(cfg, st).st, false);
  }

  lemma TurnCheckSim(cfg: Config, st: State, st': State, r: Recording)
    requires InStep(st, st', r) && TurnCheck(cfg, st).Some? && FutureOk(TurnCheck(cfg, st).value, r)
    ensures TurnCheck(cfg, st').Some? && Rel(TurnCheck(cfg, st).value, TurnCheck(cfg, st').value, r)
  {
    hide Rel, Steady, Undisturbed, Scan, MaybeCompact, CompleteOnce, Closed, GoodRecord, PastOk, FutureOk, TurnCheck,
         ToolCheck, Turn, Cancelled, Drain, PoolExhausted, Covers, Echo, AtCalls;
    RelSame(st, st', r);
    NeverCancelled(st.world);
    MirrorGoesOn(st, st', r);
    CheckOf(cfg, st);
    CheckOf(cfg, st');
    var m, m' := MaybeCompact(cfg, st), MaybeCompact(cfg, st');
    var c, c' := CompleteOnce(cfg, m.st, false), CompleteOnce(cfg, m'.st, false);
    FutureMeans(ToolCheck(cfg, c.st, c.resp.toolCalls), r);
    CheckCovers(cfg, c.st, c.resp.toolCalls);
    CoversOn(c.st, ToolCheck(cfg, c.st, c.resp.toolCalls), r);
    CompletionSim(cfg, st, st', r);
    MaybeCompactGrows(cfg, st);
    RelSame(m.st, m'.st, r);
    CallsSim(cfg, st, m.st, m'.st, r);
    CheckSim(cfg, c.st, c'.st, c.resp.toolCalls, r);
    MirrorGoesOn(ToolCheck(cfg, c.st, c.resp.toolCalls), ToolCheck(cfg, c'.st, c.resp.toolCalls), r);
  }

  lemma CheckCovers(cfg: Config, st: State, calls: seq<ToolCall>)
    requires forall c | c in calls :: c.id != ""
    ensures Covers(RecordingOf(ToolCheck(cfg, st, calls)), st)
  {
    hide ExecuteTools, Results;
    var (rs, w) := ExecuteTools(st.world, calls, cfg.parallel, cfg.accepts, cfg.outputMax);
    ResultsCover(st.(world := w), calls, rs);
  }

  // ----- The theorem -----

  function FirstTriggers(cfg: Config): Triggers {
    NewTriggers(cfg.historyBudget, cfg.contextReserve, cfg.contextWindow)
  }

  /** st', resumed over `live`, stands where the recorded run stood in st: the same conversation, iterations, triggers
      and bookkeeping; nothing paid or charged; its record the recorded one without the usage; the live world not
      touched; and the budget check reads what the recorded run's read, all of it from the seed. */
  predicate StandsAt(st': State, st: State, live: World) {
    && st'.world.Resuming? && st'.world.live == live && !st'.world.rs.diverged
    && st' == st.(world := st'.world, run := st'.run, log := Free(st.log), usage := ZERO_USAGE, charged := 0,
                  passes := AllUnpaid(st.passes))
    && Seed(st'.world) == st.usage && Budgeted(st') == Budgeted(st)
  }

  lemma RelStands(st: State, st': State, r: Recording, live: World)
    requires Rel(st, st', r) && r.behind == Some(live)
    ensures StandsAt(st', st, live)
  {
    hide Rel, Free, AllUnpaid;
    RelSame(st, st', r);
    RelAligned(st, st', r);
  }

  /** A beginning of the recorded run's events that reaches st, as a recording to resume from. */
  function Partial(cfg: Config, rec: seq<Event>, st: State, live: World, inOrder: bool): Recording {
    Recording(rec, st.passes, FirstTriggers(cfg), Some(live), inOrder)
  }

  /** What holds of the whole record from st on holds of the part of it on file. */
  lemma PartialFuture(cfg: Config, st: State, last: State, rec: seq<Event>, at: State, live: World,
                      inOrder: bool)
    requires FutureOk(st, RecordingOf(last)) && rec <= last.log + [Finalize] && st.log <= rec && st.passes <= at.passes
    ensures FutureOk(st, Partial(cfg, rec, at, live, inOrder))
  {
    hide FutureOk, Scan;
    var whole := Recording(last.log + [Finalize], last.passes, FirstTriggers(cfg), None, false);
    FinalizeWrites(st, last, whole);
    FutureMeans(st, whole);
    assert forall k :: 0 <= k < |rec| ==> rec[k] == whole.events[k];
    FuturePrefix(st, whole, Partial(cfg, rec, at, live, inOrder));
  }

  /** The record on file builds a resume client. */
  lemma RecordResumes(cfg: Config, id: string, seed: seq<Message>, task: Message, w: World, rec: seq<Event>)
    requires Steady(w) && rec <= Recorded(cfg, id, seed, task, w).1
    requires Answered(rec) > 0 && forall i :: 0 <= i < |rec| ==> DistinctCalls(rec[i])
    ensures StartsWith(rec, w.tools) && RunsTyped(Runs(rec), w.tools) && NewReplay(rec).Some?
    ensures NewResume(rec).Some? && NewResume(rec).value.rc == NewReplay(rec).value
  {
    hide Steady, Undisturbed, Run, NewReplay, Scan, DistinctCalls, GoodRecord, StartsWith;
    SteadyIsLive(w);
    RecordStarts(cfg, id, seed, task, w);
    NothingAnswered();
    var r := Recording(rec, [], FirstTriggers(cfg), Some(w), false);
    PrefixIsGood(r, Recorded(cfg, id, seed, task, w).1, w.tools);
    GoodMeans(r, w.tools);
    GoodIsReplayable(rec, w.tools);
    var st := Begin(cfg, id, seed, task, w.tools, w);
    RunUnsteered(cfg, st);
    assert forall i :: 0 <= i < |rec| ==> rec[i] == (Run(cfg, st).st.log + [Finalize])[i];
    StrictCounts(rec);
  }

  lemma NothingAnswered()
    ensures Answered([]) == 0
  {
  }

  /** A resuming run over a record, at its beginning. */
  function BeginResumed(cfg: Config, id: string, seed: seq<Message>, task: Message, rec: seq<Event>, live: World,
                        orders: seq<seq<nat>>): State
    requires NewResume(rec).Some? && live.Live?
  {
    Begin(cfg, id, seed, task, live.tools, Resuming(NewResume(rec).value, live, orders))
  }

  /** A run on a steady world with its record cut off somewhere, and a live world with the same tools that lets the run
      go on. */
  predicate CutOff(cfg: Config, id: string, seed: seq<Message>, task: Message, w: World, rec: seq<Event>, live: World) {
    && Steady(w) && live.Live? && Quiet(live) && live.tools == w.tools
    && rec <= Recorded(cfg, id, seed, task, w).1 && Answered(rec) > 0
    && forall i :: 0 <= i < |rec| ==> DistinctCalls(rec[i])
  }

  /** The resumed run begins in step with the run as it would go undisturbed. */
  lemma ResumedInStep(cfg: Config, id: string, id': string, seed: seq<Message>, task: Message, w: World,
                      rec: seq<Event>, live: World, orders: seq<seq<nat>>, r: Recording)
    requires CutOff(cfg, id, seed, task, w, rec, live)
    requires r.events == rec && r.start == FirstTriggers(cfg) && r.behind == Some(live)
    requires AllHarmless(r.start, r.passes) && (r.inOrder ==> orders == [])
    ensures NewResume(rec).Some?
    ensures InStep(CalmedState(Begin(cfg, id, seed, task, w.tools, w)),
                   BeginResumed(cfg, id', seed, task, rec, live, orders), r)
  {
    hide Steady, Undisturbed, Quiet, Run, Begin, Scan, NewReplay, NewResume, DistinctCalls, Rel, GoodRecord,
         StartsWith, AllHarmless, PastOk, Closed, Calmed;
    CalmedIsUndisturbed(w);
    RecordResumes(cfg, id, seed, task, w, rec);
    NothingAnswered();
    RecordStarts(cfg, id, seed, task, w);
    PrefixIsGood(r, Recorded(cfg, id, seed, task, w).1, w.tools);
    BeginCalmed(cfg, id, seed, task, w);
    BeginAligned(cfg, id, id', seed, task, Calmed(w), Resuming(NewResume(rec).value, live, orders), r);
  }

  lemma BeginCalmed(cfg: Config, id: string, seed: seq<Message>, task: Message, w: World)
    requires w.Live? && Calmed(w).Live? && Calmed(w).tools == w.tools
    ensures var st := CalmedState(Begin(cfg, id, seed, task, w.tools, w));
            st == Begin(cfg, id, seed, task, Calmed(w).tools, Calmed(w)) && st.world == Calmed(w)
    ensures Begin(cfg, id, seed, task, w.tools, w).world == w
  {
  }

  /** A calmed state is the state itself for all a resumed run repeats. */
  lemma StandsAtCalmed(st': State, st: State, live: World)
    requires st.world.Live? && StandsAt(st', CalmedState(st), live)
    ensures StandsAt(st', st, live)
  {
    hide Free, AllUnpaid;
  }

  /** What the record still to come says of st it says of st undisturbed. */
  lemma FutureCalmed(st: State, r: Recording)
    requires FutureOk(st, r)
    ensures FutureOk(CalmedState(st), r)
  {
    hide Scan;
  }

  /** After as many turns as the record holds, the resumed run is in step with the run as it would go undisturbed. */
  lemma ResumedTurnsInStep(cfg: Config, id: string, id': string, seed: seq<Message>, task: Message, w: World,
                           rec: seq<Event>, live: World, orders: seq<seq<nat>>, k: nat, inOrder: bool)
    requires CutOff(cfg, id, seed, task, w, rec, live) && (inOrder ==> orders == [])
    requires var at := TurnsFrom(cfg, Begin(cfg, id, seed, task, w.tools, w), k);
             at.Some? && at.value.log <= rec && AllHarmless(FirstTriggers(cfg), at.value.passes)
    ensures NewResume(rec).Some?
    ensures var at := TurnsFrom(cfg, Begin(cfg, id, seed, task, w.tools, w), k).value;
            var at' := TurnsFrom(cfg, BeginResumed(cfg, id', seed, task, rec, live, orders), k);
            && at.world.Live? && at'.Some?
            && InStep(CalmedState(at), at'.value, Partial(cfg, rec, at, live, inOrder))
  {
    hide Steady, Undisturbed, Quiet, Run, Begin, Scan, NewResume, DistinctCalls, Rel, GoodRecord, AllHarmless, PastOk,
         Closed, TurnsFrom, FutureOk, Calmed;
    CalmedIsUndisturbed(w);
    var st := Begin(cfg, id, seed, task, w.tools, w);
    var at := TurnsFrom(cfg, st, k).value;
    var r := Partial(cfg, rec, at, live, inOrder);
    ResumedInStep(cfg, id, id', seed, task, w, rec, live, orders, r);
    BeginCalmed(cfg, id, seed, task, w);
    TurnsCalmed(cfg, st, k);
    SteadyIsLive(at.world);
    RunFrom(cfg, st, k);
    RunWritesForward(cfg, at);
    PartialFuture(cfg, at, Run(cfg, at).st, rec, at, live, inOrder);
    FutureCalmed(at, r);
    TurnsSim(cfg, CalmedState(st), BeginResumed(cfg, id', seed, task, rec, live, orders), r, k);
  }

  /** Resume repeats the record. For every configuration, seed and task, every run that is not steered, whether its
      calls are rewritten, its context ends or its pool runs dry later on or not,
        every beginning of its record and every
      number of turns that beginning holds: if the passes made so far are harmless, the record builds a resume client,
      and the loop on it, under any run id, over any live world that lets it go on and with its tools dispatched in any
      orders, stands after as many turns where the recorded run stood. So at the top of every turn the budget is judged
      as it was. */
  lemma ResumeRepeatsTheRecord(cfg: Config, id: string, id': string, seed: seq<Message>, task: Message, w: World,
                               rec: seq<Event>, live: World, orders: seq<seq<nat>>, k: nat)
    requires CutOff(cfg, id, seed, task, w, rec, live)
    requires var at := TurnsFrom(cfg, Begin(cfg, id, seed, task, w.tools, w), k);
             at.Some? && at.value.log <= rec && AllHarmless(FirstTriggers(cfg), at.value.passes)
    ensures NewResume(rec).Some?
    ensures var at := TurnsFrom(cfg, Begin(cfg, id, seed, task, w.tools, w), k);
            var at' := TurnsFrom(cfg, BeginResumed(cfg, id', seed, task, rec, live, orders), k);
            at'.Some? && StandsAt(at'.value, at.value, live)
  {
    hide Steady, Undisturbed, Quiet, Run, Begin, NewResume, DistinctCalls, AllHarmless, TurnsFrom, StandsAt, Calmed,
         InStep;
    CalmedIsUndisturbed(w);
    ResumedTurnsInStep(cfg, id, id', seed, task, w, rec, live, orders, k, false);
    var at := TurnsFrom(cfg, Begin(cfg, id, seed, task, w.tools, w), k).value;
    var at' := TurnsFrom(cfg, BeginResumed(cfg, id', seed, task, rec, live, orders), k).value;
    var r := Partial(cfg, rec, at, live, false);
    InStepRel(CalmedState(at), at', r);
    RelStands(CalmedState(at), at', r, live);
    StandsAtCalmed(at', at, live);
  }

  lemma InStepRel(st: State, st': State, r: Recording)
    requires InStep(st, st', r)
    ensures Rel(st, st', r)
  {
    hide Rel, Closed, PastOk, GoodRecord;
  }

  /** The first turn, seen from the end of the run. */
  lemma TurnAhead(cfg: Config, st: State)
    ensures FutureOk(Turn(cfg, st).st, RecordingOf(Run(cfg, st).st))
  {
    hide Scan, Turn, FutureOk;
    var t := Turn(cfg, st);
    if t.Again? {
      RunWritesForward(cfg, t.st);
    } else {
      NothingAhead(t.st);
    }
  }

  /** The turn that gets to the check behind its tools, unfolded. */
  lemma CheckIn(cfg: Config, st: State)
    requires Steady(st.world) && TurnCheck(cfg, st).Some?
    ensures var st0 := st.(world := Cancelled(PoolExhausted(st.world).1).1);
            var m := MaybeCompact(cfg, st0);
            var c := CompleteOnce(cfg, m.st, false);
            && m.Kept? && c.Completed? && (forall t | t in c.resp.toolCalls :: t.id != "")
            && TurnCheck(cfg, st).value == ToolCheck(cfg, c.st, c.resp.toolCalls)
            && Turn(cfg, st) == ToolPhase(cfg, c.st, c.resp.toolCalls)
  {
    hide MaybeCompact, CompleteOnce, ToolCheck, ToolPhase, Cancelled, PoolExhausted, Stop, NoCalls, DrainInto,
         Budgeted, Steady, Undisturbed;
    var st0 := st.(world := Cancelled(PoolExhausted(st.world).1).1);
    LooksAreCalm(st.world);
    LooksAreCalm(PoolExhausted(st.world).1);
    NoSteersCalmed(st0);
    ServedCallsAreNamed(cfg, MaybeCompact(cfg, st0).st, false);
  }

  lemma CheckAhead(cfg: Config, st: State)
    requires Steady(st.world) && TurnCheck(cfg, st).Some?
    ensures FutureOk(TurnCheck(cfg, st).value, RecordingOf(Run(cfg, st).st))
    ensures st.passes <= TurnCheck(cfg, st).value.passes && st.log <= TurnCheck(cfg, st).value.log
  {
    hide Steady, Undisturbed, Scan, MaybeCompact, CompleteOnce, FutureOk, TurnCheck, ToolCheck, Turn, ToolPhase,
         Covers, Run, Stop, Cancelled, PoolExhausted;
    CheckIn(cfg, st);
    var st0 := st.(world := Cancelled(PoolExhausted(st.world).1).1);
    MaybeCompactGrows(cfg, st0);
    var m := MaybeCompact(cfg, st0).st;
    CompleteOnceGrows(cfg, m, false);
    var c := CompleteOnce(cfg, m, false);
    var a := ToolCheck(cfg, c.st, c.resp.toolCalls);
    CheckCovers(cfg, c.st, c.resp.toolCalls);
    CoversOn(m, c.st, RecordingOf(a));
    CoversOn(st0, m, RecordingOf(a));
    CoversMeans(RecordingOf(a), st0);
    ToolPhaseOf(cfg, c.st, c.resp.toolCalls);
    TurnAhead(cfg, st);
    var a2 := a.(world := Cancelled(a.world).1);
    StopGrows(cfg, a2, TokenBudget);
    GrewSelf(a2, a2);
    FutureBack(a2, Turn(cfg, st).st, RecordingOf(Run(cfg, st).st));
    FutureSame(a, a2, RecordingOf(Run(cfg, st).st));
  }

  lemma FutureSame(a: State, b: State, r: Recording)
    requires FutureOk(b, r) && a.log == b.log && a.passes == b.passes && a.iterations == b.iterations
    ensures FutureOk(a, r)
  {
    hide Scan;
  }

  /** The same at the budget check behind a turn's tools, once the record holds their results: the resumed run gets
      there and judges the budget as the recorded run did. */
  lemma ResumeRepeatsTheCheck(cfg: Config, id: string, id': string, seed: seq<Message>, task: Message, w: World,
                              rec: seq<Event>, live: World, orders: seq<seq<nat>>, k: nat)
    requires CutOff(cfg, id, seed, task, w, rec, live)
    requires var at := TurnsFrom(cfg, Begin(cfg, id, seed, task, w.tools, w), k);
             && at.Some? && TurnCheck(cfg, at.value).Some?
             && var a := TurnCheck(cfg, at.value).value; a.log <= rec && AllHarmless(FirstTriggers(cfg), a.passes)
    ensures NewResume(rec).Some?
    ensures var at := TurnsFrom(cfg, Begin(cfg, id, seed, task, w.tools, w), k).value;
            var at' := TurnsFrom(cfg, BeginResumed(cfg, id', seed, task, rec, live, orders), k);
            && at'.Some? && TurnCheck(cfg, at'.value).Some?
            && StandsAt(TurnCheck(cfg, at'.value).value, TurnCheck(cfg, at).value, live)
  {
    hide Steady, Undisturbed, Quiet, Run, Begin, Scan, NewResume, DistinctCalls, Rel, GoodRecord, AllHarmless, PastOk,
         Closed, TurnsFrom, StandsAt, FutureOk, TurnCheck, Calmed;
    CalmedIsUndisturbed(w);
    var st := Begin(cfg, id, seed, task, w.tools, w);
    var at := TurnsFrom(cfg, st, k).value;
    var a := TurnCheck(cfg, at).value;
    var r := Partial(cfg, rec, a, live, false);
    ResumedInStep(cfg, id, id', seed, task, w, rec, live, orders, r);
    BeginCalmed(cfg, id, seed, task, w);
    TurnsCalmed(cfg, st, k);
    CheckCalmed(cfg, at);
    CheckAhead(cfg, at);
    RunFrom(cfg, st, k);
    RunWritesForward(cfg, at);
    PartialFuture(cfg, at, Run(cfg, at).st, rec, a, live, false);
    PartialFuture(cfg, a, Run(cfg, at).st, rec, a, live, false);
    FutureCalmed(at, r);
    FutureCalmed(a, r);
    var st' := BeginResumed(cfg, id', seed, task, rec, live, orders);
    TurnsSim(cfg, CalmedState(st), st', r, k);
    var at' := TurnsFrom(cfg, st', k).value;
    TurnCheckSim(cfg, CalmedState(at), at', r);
    RelStands(CalmedState(a), TurnCheck(cfg, at').value, r, live);
    CheckIsLive(cfg, at);
    StandsAtCalmed(TurnCheck(cfg, at').value, a, live);
  }

  lemma CheckIsLive(cfg: Config, st: State)
    requires Steady(st.world) && TurnCheck(cfg, st).Some?
    ensures TurnCheck(cfg, st).value.world.Live?
  {
    hide Steady, Undisturbed, Scan, MaybeCompact, CompleteOnce, TurnCheck, ToolCheck, Turn, ToolPhase, Cancelled,
         PoolExhausted;
    CheckIn(cfg, st);
    var w := PoolExhausted(st.world).1;
    LooksAreCalm(st.world);
    LooksAreCalm(w);
    var st0 := st.(world := Cancelled(w).1);
    SteadyIsLive(st0.world);
    MaybeCompactCalmed(cfg, st0);
    CompleteOnceCalmed(cfg, MaybeCompact(cfg, st0).st, false);
    var c := CompleteOnce(cfg, MaybeCompact(cfg, st0).st, false);
    ToolCheckIsLive(cfg, c.st, c.resp.toolCalls);
  }

  /** With the whole record on file, of a run that neither its context nor the pool stopped, the resumed run ends as
      the recorded one did, for nothing. */
  lemma ResumeRepeatsTheRun(cfg: Config, id: string, id': string, seed: seq<Message>, task: Message, w: World,
                            live: World, orders: seq<seq<nat>>)
    requires Steady(w)
    requires var (run, rec) := Recorded(cfg, id, seed, task, w);
             && CutOff(cfg, id, seed, task, w, rec, live)
             && run.fault != Some(CompletionFailed) && run.fault != Some(CompactionFailed)
             && run.fault != Some(Canceled) && !PoolRanDry(cfg, Begin(cfg, id, seed, task, w.tools, w))
             && AllHarmless(FirstTriggers(cfg), run.st.passes)
    ensures var (run, rec) := Recorded(cfg, id, seed, task, w);
            && NewResume(rec).Some?
            && var again := Run(cfg, BeginResumed(cfg, id', seed, task, rec, live, orders));
               again.fault == run.fault && StandsAt(again.st, run.st, live)
  {
    hide Steady, Undisturbed, Quiet, Run, Begin, Scan, NewReplay, NewResume, DistinctCalls, Rel, GoodRecord,
         StartsWith, AllHarmless, StandsAt, PoolRanDry, Calmed, PastOk, Closed;
    CalmedIsUndisturbed(w);
    var st := Begin(cfg, id, seed, task, w.tools, w);
    var (run, rec) := Recorded(cfg, id, seed, task, w);
    var r := WholeRecording(cfg, run, Some(live));
    ResumedInStep(cfg, id, id', seed, task, w, rec, live, orders, r);
    BeginCalmed(cfg, id, seed, task, w);
    RunCalmed(cfg, st);
    var st' := BeginResumed(cfg, id', seed, task, rec, live, orders);
    RunSim(cfg, CalmedState(st), st', r);
    RelStands(CalmedState(run.st), Run(cfg, st').st, r, live);
    RunIsLive(cfg, st);
    StandsAtCalmed(Run(cfg, st').st, run.st, live);
  }

  lemma {:induction false} RunIsLive(cfg: Config, st: State)
    requires Steady(st.world)
    ensures Steady(Run(cfg, st).st.world) && Run(cfg, st).st.world.Live?
    decreases Remaining(st.world)
  {
    hide Turn, Steady, Undisturbed;
    TurnIsCalm(cfg, st);
    SteadyIsLive(Turn(cfg, st).st.world);
    if Turn(cfg, st).Again? {
      RunIsLive(cfg, Turn(cfg, st).st);
    }
  }

  // ----- When every pass is harmless -----

  /** Free passes are harmless. */
  lemma FreeIsHarmless(t: Triggers, ps: seq<Pass>)
    requires forall p | p in ps :: !p.paid
    ensures AllHarmless(t, ps)
  {
    hide After;
  }

  /** Under the stubbing compactor every run's passes are harmless, whatever its budgets and reserve. */
  lemma StubbingIsHarmless(cfg: Config, id: string, seed: seq<Message>, task: Message, offered: seq<string>, w: World,
                           ps: seq<Pass>)
    requires cfg.compactor.Stubbing? && ps <= Run(cfg, Begin(cfg, id, seed, task, offered, w)).st.passes
    ensures AllHarmless(FirstTriggers(cfg), ps)
  {
    hide Run, Begin, After, CountedPasses, Pow2;
    RunCompactsBoundedly(cfg, id, seed, task, offered, w, 0);
    var all := Run(cfg, Begin(cfg, id, seed, task, offered, w)).st.passes;
    forall p | p in ps ensures !p.paid {
      var i :| 0 <= i < |ps| && ps[i] == p;
      assert all[i] == p && p in all && Made(cfg, p);
    }
    FreeIsHarmless(FirstTriggers(cfg), ps);
  }

  /** Without a reserve trigger a paid boundary pass is harmless exactly when it shrank the history or was not due,
      and a paid recovery always is. */
  lemma NoReserveHarmless(t: Triggers, ps: seq<Pass>)
    requires !t.proactive
    ensures AllHarmless(t, ps) <==>
              forall i: nat :: i < |ps| && ps[i].paid && ps[i].AtBoundary? ==>
                !After(t, ps[..i]).Due(ps[i].before) || ps[i].after < ps[i].before
  {
    hide After;
    forall i: nat | i < |ps| ensures !After(t, ps[..i]).proactive {
      StaysReactive(t, ps[..i]);
    }
  }

  lemma {:induction false} StaysReactive(t: Triggers, ps: seq<Pass>)
    requires !t.proactive
    ensures !After(t, ps).proactive
  {
    if ps != [] {
      StaysReactive(t, ps[..|ps| - 1]);
    }
  }

  /** A configuration under which no cost is forgotten: the stubbing compactor, or no trigger at all, so that only
      refused requests are compacted. */
  predicate ForgetsNothing(cfg: Config) {
    cfg.compactor.Stubbing? || (cfg.historyBudget <= 0 && (cfg.contextReserve <= 0 || cfg.contextWindow <= 0))
  }

  lemma NothingForgotten(cfg: Config, id: string, seed: seq<Message>, task: Message, offered: seq<string>, w: World,
                         ps: seq<Pass>)
    requires ForgetsNothing(cfg) && ps <= Run(cfg, Begin(cfg, id, seed, task, offered, w)).st.passes
    ensures AllHarmless(FirstTriggers(cfg), ps)
  {
    hide Run, Begin, After;
    if cfg.compactor.Stubbing? {
      StubbingIsHarmless(cfg, id, seed, task, offered, w, ps);
    } else {
      var t := FirstTriggers(cfg);
      NoReserveHarmless(t, ps);
      forall i: nat | i < |ps| && ps[i].AtBoundary? ensures !After(t, ps[..i]).Due(ps[i].before) {
        NeverDue(t, ps[..i], ps[i].before);
      }
    }
  }

  lemma NeverDue(t: Triggers, ps: seq<Pass>, est: int)
    requires t.budget <= 0 && !t.proactive
    ensures !After(t, ps).Due(est)
  {
    hide After, CountedPasses;
    StaysReactive(t, ps);
    BudgetDoubles(t, ps);
    var k := CountedPasses(t, ps);
    assert t.budget * Pow2(k) <= 0;
  }

  /** So under such a configuration every run that is not steered resumes: after every turn its record holds, the
      resumed run
      stands where the recorded one stood. */
  lemma EveryRunResumes(cfg: Config, id: string, id': string, seed: seq<Message>, task: Message, w: World,
                        rec: seq<Event>, live: World, orders: seq<seq<nat>>, k: nat)
    requires ForgetsNothing(cfg) && CutOff(cfg, id, seed, task, w, rec, live)
    requires var at := TurnsFrom(cfg, Begin(cfg, id, seed, task, w.tools, w), k); at.Some? && at.value.log <= rec
    ensures NewResume(rec).Some?
    ensures var at := TurnsFrom(cfg, Begin(cfg, id, seed, task, w.tools, w), k);
            var at' := TurnsFrom(cfg, BeginResumed(cfg, id', seed, task, rec, live, orders), k);
            at'.Some? && StandsAt(at'.value, at.value, live)
  {
    hide Run, Begin, TurnsFrom, StandsAt, FutureOk, NewResume, AllHarmless, Covers, Steady, Undisturbed, DistinctCalls,
         Scan;
    SteadyIsLive(w);
    var st := Begin(cfg, id, seed, task, w.tools, w);
    var at := TurnsFrom(cfg, st, k).value;
    RunFrom(cfg, st, k);
    RunWritesForward(cfg, at);
    FutureMeans(at, RecordingOf(Run(cfg, at).st));
    CoversMeans(RecordingOf(Run(cfg, at).st), at);
    NothingForgotten(cfg, id, seed, task, w.tools, w, at.passes);
    ResumeRepeatsTheRecord(cfg, id, id', seed, task, w, rec, live, orders, k);
  }
}
