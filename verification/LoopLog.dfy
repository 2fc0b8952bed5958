/** What the loop writes to its record: tool runs appear only in the tool phase, each after the
    completion that asked for it, and no later turn reuses an earlier turn's step or response. */
module LoopLog {

  import opened Decimal
  import opened Chat
  import opened Compaction
  import opened Summaries
  import opened Triggers
  import opened CallIds
  import opened Record
  import opened ReplayClient
  import opened ReplayScan
  import opened Worlds
  import opened Loop

  function Runs(log: seq<Event>): seq<RunAt> {
    Scan(log).runs
  }

  function Answered(log: seq<Event>): nat {
    |Scan(log).responses|
  }

  /** A run as far as it is recorded: its events, the passes its triggers saw, the triggers it began with; and,
      when it is to be resumed, the live world behind its record and whether calls are dispatched in their order. */
  datatype Recording = Recording(events: seq<Event>, passes: seq<Pass>, start: Triggers, behind: Option<World>,
                                 inOrder: bool)

  function RecordingOf(st: State): Recording {
    Recording(st.log, st.passes, st.triggers, None, false)
  }

  /** The recording holds all that st has written, and no run starts behind it. */
  predicate Covers(r: Recording, st: State) {
    && st.log <= r.events && st.passes <= r.passes
    && forall k :: |st.log| <= k < |r.events| ==> !r.events[k].Start?
  }

  lemma CoversOn(a: State, b: State, r: Recording)
    requires Covers(RecordingOf(b), a) && Covers(r, b)
    ensures Covers(r, a)
  {
    forall k | |a.log| <= k < |r.events| ensures !r.events[k].Start? {
      if k < |b.log| {
        assert r.events[k] == b.log[k];
      }
    }
  }

  /** From a to b the log grew without a tool run. */
  predicate Grew(a: State, b: State) {
    && Covers(RecordingOf(b), a) && Runs(b.log) == Runs(a.log) && b.iterations >= a.iterations && b.run == a.run
    && Answered(b.log) >= Answered(a.log)
    && Scan(b.log).offered == Scan(a.log).offered
    && Calm(a.world, b.world)
  }

  lemma EmitGrows(st: State, ev: Event)
    requires !ev.ToolRun? && !ev.Start?
    ensures Grew(st, Emit(st, ev))
  {
    ScanSnoc(st.log, ev);
    ScanEventReads(Scan(st.log), ev);
    hide Steady, Undisturbed, Scan;
  }

  lemma {:induction false} PurposesGrow(log: seq<Event>, calls: seq<Reply>, step: nat)
    ensures var l := log + PurposeEvents(step, calls); Scan(l) == Scan(log).(open := Scan(log).open + calls)
  {
    ScanPurposes(log, calls, PurposeEvents(step, calls));
    hide Steady, Undisturbed, Scan;
  }

  lemma CompactorIsCalm(cfg: Config, w: World, msgs: seq<Message>, stubOnly: bool)
    ensures Calm(w, RunCompactor(cfg, w, msgs, stubOnly).1)
  {
    hide StubHistory, Summarized, SummaryCut, AskSummary, Steady, Undisturbed;
    var cut := SummaryCut(cfg.prompts, msgs);
    if cut.Cut? {
      AskSummaryIsCalm(w, cfg.strip, cfg.partial, cfg.render(Wire(msgs, cfg.accepts)[cut.from..cut.at]));
    }
  }

  lemma CompactGrows(cfg: Config, st: State)
    ensures Grew(st, Compact(cfg, st).1) && Compact(cfg, st).1.iterations == st.iterations
  {
    hide RunCompactor, Spend, Steady, Undisturbed, Scan, Charged;
    CompactorIsCalm(cfg, st.world, st.messages, st.triggers.stubOnly);
    var (out, st1) := Compact(cfg, st);
    PurposesGrow(st.log, out.calls, st.iterations + 1);
  }

  lemma MaybeCompactGrows(cfg: Config, st: State)
    ensures Grew(st, MaybeCompact(cfg, st).st) && MaybeCompact(cfg, st).st.iterations == st.iterations
  {
    hide Compact, Spend, Steady, Undisturbed, Scan, EstimateTokens;
    CompactGrows(cfg, st);
    var (out, st1) := Compact(cfg, st);
    var before := EstimateTokens(Wire(st.messages, cfg.accepts));
    EmitGrows(st1.(messages := out.messages),
              Compacted(st1.iterations + 1, before, EstimateTokens(Wire(out.messages, cfg.accepts)), false));
  }

  /** The record of a served response: its calls are the last event's. */
  predicate EndsWithAnswer(log: seq<Event>, calls: seq<ToolCall>) {
    && log != []
    && var ev := log[|log| - 1];
       ev.Completion? && !ev.purpose && ev.reply.Answer? && ev.reply.resp.toolCalls == calls
  }

  /** A completion: a success is the last event, counts one iteration and one response more. */
  predicate CompletionGrew(st: State, c: Completed) {
    && Grew(st, c.st)
    && (c.Completed? ==>
          && EndsWithAnswer(c.st.log, c.resp.toolCalls)
          && c.st.iterations > st.iterations && Answered(c.st.log) > Answered(st.log))
  }

  /** What one request writes: its Completion, and an answer counts one iteration. */
  lemma CompleteWrites(cfg: Config, st: State, final: bool)
    ensures var c := Complete(cfg, st, final);
            var ev := c.st.log[|st.log|];
            && c.st.log == st.log + [ev] && ev.Completion? && !ev.purpose && c.st.passes == st.passes
            && c.st.run == st.run
            && c.st.world == Ask(st.world, Request(Wire(st.messages, cfg.accepts), final)).1
            && (c.Faulted? ==> c.st.iterations == st.iterations)
            && (c.Completed? ==> ev.reply == Answer(c.resp) && c.st.iterations == st.iterations + 1)
  {
    hide Ask, Filled, Charged, Wire, Usage.Add;
  }

  /** A recorded completion is one response more, unless it failed. */
  lemma CompletionReads(log: seq<Event>, ev: Event)
    requires ev.Completion? && !ev.purpose
    ensures Answered(log + [ev]) == Answered(log) + if ev.reply.Failed? then 0 else 1
  {
    ScanSnoc(log, ev);
    hide Scan;
  }

  lemma CompleteGrows(cfg: Config, st: State, final: bool)
    ensures CompletionGrew(st, Complete(cfg, st, final))
    ensures var c := Complete(cfg, st, final); |c.st.log| == |st.log| + 1 && !IsPurpose(c.st.log[|st.log|])
  {
    hide Complete, Ask, Steady, Undisturbed, Scan, Wire, Grew;
    CompleteWrites(cfg, st, final);
    var c := Complete(cfg, st, final);
    var ev := c.st.log[|st.log|];
    CompletionReads(st.log, ev);
    EmitGrows(st, ev);
    AskIsCalm(st.world, Request(Wire(st.messages, cfg.accepts), final));
    GrewLater(st, Emit(st, ev), c.st);
  }

  /** The world may have moved calmly and iterations been counted on top of a growth. */
  lemma GrewLater(a: State, b: State, c: State)
    requires Grew(a, b) && c.run == b.run && c.log == b.log && c.passes == b.passes && c.iterations >= b.iterations
    requires Calm(a.world, c.world)
    ensures Grew(a, c)
  {
    hide Scan, Steady, Undisturbed;
  }

  lemma RetryGrows(cfg: Config, st: State, st1: State, out: CompactOut)
    requires Grew(st, st1)
    ensures Grew(st, RetryState(cfg, st, st1, out))
  {
    hide Steady, Undisturbed, Scan, EstimateTokens, Spend;
    EmitGrows(st1, Compacted(st.iterations + 1, EstimateTokens(st.messages), EstimateTokens(out.messages), true));
  }

  lemma RecoverGrows(cfg: Config, st: State, final: bool)
    ensures CompletionGrew(st, Recover(cfg, st, final))
  {
    hide Compact, Steady, Undisturbed, Scan, Complete, RetryState;
    CompactGrows(cfg, st);
    var (out, st1) := Compact(cfg, st);
    RetryGrows(cfg, st, st1, out);
    CompleteGrows(cfg, RetryState(cfg, st, st1, out), final);
  }

  lemma RecoveringGrows(cfg: Config, st: State, final: bool)
    ensures CompletionGrew(st, CompleteRecovering(cfg, st, final))
    ensures var c := CompleteRecovering(cfg, st, final); |c.st.log| > |st.log| && !IsPurpose(c.st.log[|st.log|])
  {
    hide Complete, Recover, Steady, Undisturbed, Scan;
    CompleteGrows(cfg, st, final);
    var c := Complete(cfg, st, final);
    RecoverGrows(cfg, c.st, final);
  }

  lemma CompleteOnceGrows(cfg: Config, st: State, final: bool)
    ensures CompletionGrew(st, CompleteOnce(cfg, st, final))
    ensures var c := CompleteOnce(cfg, st, final); |c.st.log| > |st.log| && !IsPurpose(c.st.log[|st.log|])
  {
    hide CompleteRecovering, Steady, Undisturbed, Scan, Stitch;
    RecoveringGrows(cfg, st, final);
    var c := CompleteRecovering(cfg, st, final);
    if c.Completed? {
      RecoveringGrows(cfg, Append(Append(c.st, c.resp.Turn()), TextMessage(User, cfg.prompts.continueText)), final);
    }
  }

  lemma StopGrows(cfg: Config, st: State, reason: Truncation)
    ensures Grew(st, Stop(cfg, st, reason).st)
  {
    hide MaybeCompact, CompleteOnce, Grew;
    var st1 := Append(st, TextMessage(User, cfg.finalizePrompt))
                 .(finalized := true, triggers := st.triggers.(stubOnly := reason.TokenBudget? || reason.BudgetPool?));
    var m := MaybeCompact(cfg, st1);
    MaybeCompactGrows(cfg, st1);
    CompleteOnceGrows(cfg, m.st, true);
    var c := CompleteOnce(cfg, m.st, true);
    GrewOn(st1, m.st, c.st);
    GrewSame(st, st1, m.st, m.st);
    GrewSame(st, st1, c.st, c.st);
    GrewSame(st, st1, c.st, c.st.(truncation := reason));
    GrewSelf(st, st.(truncation := reason));
  }

  lemma GrewOn(a: State, b: State, c: State)
    requires Grew(a, b) && Grew(b, c)
    ensures Grew(a, c)
  {
    hide Scan, Steady, Undisturbed, Covers;
    CoversOn(a, b, RecordingOf(c));
  }

  lemma GrewSelf(a: State, b: State)
    requires a.run == b.run && a.log == b.log && a.passes == b.passes && a.iterations == b.iterations &&
             a.world == b.world
    ensures Grew(a, b)
  {
    hide Scan, Steady, Undisturbed;
  }

  /** Growth does not see the conversation and the outcome's other fields. */
  lemma GrewSame(a: State, a': State, b: State, b': State)
    requires Grew(a', b) && a.run == a'.run && b'.run == b.run && a.log == a'.log && a.passes == a'.passes &&
             a.iterations == a'.iterations &&
             a.world == a'.world
    requires b'.log == b.log && b'.passes == b.passes && b'.iterations == b.iterations && b'.world == b.world
    ensures Grew(a, b')
  {
    hide Scan, Steady, Undisturbed;
  }

  lemma {:induction false} DeliverGrows(st: State, turns: seq<seq<Block>>)
    ensures Grew(st, Deliver(st, turns))
  {
    hide Steady, Undisturbed, Scan;
    if turns != [] {
      var st1 := Deliver(st, turns[..|turns| - 1]);
      DeliverGrows(st, turns[..|turns| - 1]);
      EmitGrows(st1, Steered(st.iterations + 1, SteerMessage(turns[|turns| - 1])));
    }
  }

  // ----- The tool phase -----

  /** The runs a turn files: one per result, all with the turn's step and response. */
  function TurnRuns(step: nat, resp: int, calls: seq<ToolCall>, results: seq<ToolRes>): (r: seq<RunAt>)
    requires |results| <= |calls|
    ensures |r| == |results|
    ensures forall i :: 0 <= i < |r| ==> r[i] == RunAt(step, resp, RecordOf(calls[i], results[i]))
  {
    seq(|results|, i requires 0 <= i < |results| => RunAt(step, resp, RecordOf(calls[i], results[i])))
  }

  function Ids(calls: seq<ToolCall>): (r: seq<string>)
    ensures |r| == |calls| && forall i :: 0 <= i < |r| ==> r[i] == calls[i].id
  {
    seq(|calls|, i requires 0 <= i < |calls| => calls[i].id)
  }

  lemma ToolRunScan(log: seq<Event>, step: nat, run: RunRecord)
    ensures var l := log + [ToolRun(step, run)];
            && Runs(l) == Runs(log) + [RunAt(step, Answered(log) - 1, run)]
            && Scan(l).responses == Scan(log).responses
            && Scan(l).pending == Scan(log).pending + [run.call.id]
            && Scan(l).open == [] && Scan(l).offered == Scan(log).offered &&
               Flush(Scan(l)).summaries == Flush(Scan(log)).summaries
            && Scan(l).compaction == Scan(log).compaction
  {
    ScanSnoc(log, ToolRun(step, run));
    hide Steady, Undisturbed, Scan;
  }

  lemma TurnRunsSnoc(step: nat, resp: int, calls: seq<ToolCall>, results: seq<ToolRes>)
    requires 0 < |results| <= |calls|
    ensures var n := |results| - 1;
            && TurnRuns(step, resp, calls, results)
               == TurnRuns(step, resp, calls, results[..n]) + [RunAt(step, resp, RecordOf(calls[n], results[n]))]
            && Ids(calls[..n + 1]) == Ids(calls[..n]) + [calls[n].id]
  {
    hide RecordOf;
  }

  lemma {:induction false} ResultsLog(st: State, calls: seq<ToolCall>, results: seq<ToolRes>)
    requires |results| <= |calls|
    ensures var r := Results(st, calls, results);
            && st.log <= r.log && |r.log| == |st.log| + |results|
            && Runs(r.log) == Runs(st.log) + TurnRuns(st.iterations, Answered(st.log) - 1, calls, results)
            && Scan(r.log).responses == Scan(st.log).responses
            && Scan(r.log).pending == Scan(st.log).pending + Ids(calls[..|results|])
            && (results != [] ==> Scan(r.log).open == [])
            && Scan(r.log).offered == Scan(st.log).offered
            && Flush(Scan(r.log)).summaries == Flush(Scan(st.log)).summaries
  {
    hide Steady, Undisturbed, Scan, RecordOf, ResMessage, Flush;
    if results == [] {
      assert TurnRuns(st.iterations, Answered(st.log) - 1, calls, results) == [];
      assert Ids(calls[..0]) == [];
    } else {
      var n := |results| - 1;
      ResultsLog(st, calls, results[..n]);
      ToolRunScan(Results(st, calls, results[..n]).log, st.iterations, RecordOf(calls[n], results[n]));
      TurnRunsSnoc(st.iterations, Answered(st.log) - 1, calls, results);
    }
  }

  lemma {:induction false} ResultsCover(st: State, calls: seq<ToolCall>, results: seq<ToolRes>)
    requires |results| <= |calls|
    ensures Covers(RecordingOf(Results(st, calls, results)), st)
  {
    hide RecordOf, ResMessage;
    if results != [] {
      ResultsCover(st, calls, results[..|results| - 1]);
    }
  }

  // ----- Past and future of a state between turns -----

  /** No run read so far has a step past the run's iterations. */
  predicate PastOk(st: State) {
    forall i :: 0 <= i < |Runs(st.log)| ==> Runs(st.log)[i].step <= st.iterations
  }

  /** Every run of the longer record that is not in st's log belongs to a later step and response. */
  predicate FutureOk(st: State, r: Recording) {
    && Covers(r, st)
    && forall i :: |Runs(st.log)| <= i < |Runs(r.events)| ==>
         Runs(r.events)[i].resp >= Answered(st.log) && Runs(r.events)[i].step > st.iterations
  }

  lemma FutureBack(a: State, b: State, r: Recording)
    requires Grew(a, b) && FutureOk(b, r)
    ensures FutureOk(a, r)
  {
    hide Steady, Undisturbed, Scan, Covers;
    CoversOn(a, b, r);
  }

  lemma FutureChain(a: State, b: State, r: Recording)
    requires FutureOk(a, RecordingOf(b)) && FutureOk(b, r) && b.iterations >= a.iterations
    ensures FutureOk(a, r)
  {
    hide Steady, Undisturbed, Scan;
    CoversOn(a, b, r);
    ScanPrefix(b.log, r.events);
    ScanPrefix(a.log, b.log);
  }

  /** What holds of a recording holds of any beginning of it that st has reached. */
  lemma FuturePrefix(st: State, r: Recording, q: Recording)
    requires FutureOk(st, r) && q.events <= r.events && Covers(q, st)
    ensures FutureOk(st, q)
  {
    hide Steady, Undisturbed, Scan, Covers;
    ScanPrefix(q.events, r.events);
    var a, b := Runs(q.events), Runs(r.events);
    forall i | |Runs(st.log)| <= i < |a| ensures a[i].resp >= Answered(st.log) && a[i].step > st.iterations {
      assert a[i] == b[i];
    }
  }

  predicate TurnWrites(st: State, t: Turned) {
    && FutureOk(st, RecordingOf(t.st)) && t.st.iterations >= st.iterations && (PastOk(st) ==> PastOk(t.st))
    && t.st.run == st.run
  }

  lemma GrewWrites(st: State, t: Turned)
    requires Grew(st, t.st)
    ensures TurnWrites(st, t)
  {
    hide Steady, Undisturbed, Scan;
  }

  lemma ToolPhaseWrites(cfg: Config, st: State, mid: State, calls: seq<ToolCall>)
    requires (forall c | c in calls :: c.id != "") && Grew(st, mid)
    requires mid.iterations > st.iterations && Answered(mid.log) > Answered(st.log)
    ensures TurnWrites(st, ToolPhase(cfg, mid, calls))
  {
    hide ExecuteTools, Results, Stop, Steady, Undisturbed, Scan, RecordOf, Covers;
    var (results, w) := ExecuteTools(mid.world, calls, cfg.parallel, cfg.accepts, cfg.outputMax);
    var mid0 := mid.(world := w);
    ResultsLog(mid0, calls, results);
    var st1 := Results(mid0, calls, results);
    ResultsCover(mid0, calls, results);
    CoversOn(st, mid0, RecordingOf(st1));
    assert FutureOk(st, RecordingOf(st1));
    assert PastOk(st) ==> PastOk(st1);
    var (done, w1) := Cancelled(w);
    var st2 := st1.(world := w1);
    StopGrows(cfg, st2, TokenBudget);
    var stopped := Stop(cfg, st2, TokenBudget).st;
    assert RecordingOf(st2) == RecordingOf(st1);
    CoversOn(st, st2, RecordingOf(stopped));
    assert FutureOk(st, RecordingOf(stopped));
  }

  lemma NoCallsWrites(cfg: Config, st: State, mid: State, resp: Response)
    requires Grew(st, mid)
    ensures Grew(st, NoCalls(cfg, mid, resp).st)
  {
    hide Steady, Undisturbed, Scan, Deliver;
    var (turns, w) := Drain(mid.world);
    DrainIsCalm(mid.world);
    DeliverGrows(mid.(world := w), turns);
  }

  lemma BodyWrites(cfg: Config, st: State)
    ensures TurnWrites(st, Body(cfg, st))
  {
    hide Steady, Undisturbed, Scan, DrainInto, MaybeCompact, CompleteOnce, NoCalls, ToolPhase, TurnWrites;
    DrainGrows(st);
    var st1 := DrainInto(st).1;
    MaybeCompactGrows(cfg, st1);
    var m := MaybeCompact(cfg, st1);
    CompleteOnceGrows(cfg, m.st, false);
    var c := CompleteOnce(cfg, m.st, false);
    if m.NotCompacted? {
      GrewWrites(st, Broke(CompactionFailed, m.st));
    } else if c.Faulted? {
      GrewWrites(st, Broke(c.fault, c.st));
    } else if c.resp.toolCalls == [] {
      NoCallsWrites(cfg, st, c.st, c.resp);
      GrewWrites(st, NoCalls(cfg, c.st, c.resp));
    } else {
      ServedCallsAreNamed(cfg, m.st, false);
      ToolPhaseWrites(cfg, st, c.st, c.resp.toolCalls);
    }
  }

  lemma DrainIsCalm(w: World)
    ensures Calm(w, Drain(w).1)
  {
    hide PlainBlocks;
  }

  lemma DrainGrows(st: State)
    ensures Grew(st, DrainInto(st).1)
  {
    hide Steady, Undisturbed, Scan, Deliver;
    var (turns, w) := Drain(st.world);
    DrainIsCalm(st.world);
    DeliverGrows(st.(world := w), turns);
  }

  lemma TurnWritesForward(cfg: Config, st: State)
    ensures TurnWrites(st, Turn(cfg, st))
  {
    hide Steady, Undisturbed, Scan, Stop, Body, PoolExhausted, Cancelled;
    var (exhausted, w) := PoolExhausted(st.world);
    var (done, w1) := Cancelled(w);
    StopGrows(cfg, st, MaxIterations);
    StopGrows(cfg, st, TokenBudget);
    StopGrows(cfg, st.(world := w), BudgetPool);
    BodyWrites(cfg, st.(world := w1));
  }

  /** Every run after a state between turns belongs to a later step and response. */
  lemma {:induction false} RunWritesForward(cfg: Config, st: State)
    ensures FutureOk(st, RecordingOf(Run(cfg, st).st))
    decreases Remaining(st.world)
  {
    hide Steady, Undisturbed, Scan, Turn, FutureOk;
    TurnWritesForward(cfg, st);
    var t := Turn(cfg, st);
    if t.Again? {
      RunWritesForward(cfg, t.st);
      FutureChain(st, t.st, RecordingOf(Run(cfg, st).st));
    }
  }

  // ----- Between turns no compaction pass is open -----

  lemma {:induction false} DeliverCloses(st: State, turns: seq<seq<Block>>)
    requires turns != [] || Scan(st.log).open == []
    ensures Scan(Deliver(st, turns).log).open == []
  {
    if turns != [] {
      var st1 := Deliver(st, turns[..|turns| - 1]);
      ScanSnoc(st1.log, Steered(st.iterations + 1, SteerMessage(turns[|turns| - 1])));
      hide Scan;
    }
  }

  lemma AnswerCloses(log: seq<Event>, calls: seq<ToolCall>)
    requires EndsWithAnswer(log, calls)
    ensures Scan(log).open == []
  {
    var n := |log| - 1;
    assert log == log[..n] + [log[n]];
    ScanSnoc(log[..n], log[n]);
    ScanEventReads(Scan(log[..n]), log[n]);
    hide Scan;
  }

  lemma ToolPhaseCloses(cfg: Config, st: State, calls: seq<ToolCall>)
    requires (forall c | c in calls :: c.id != "") && Scan(st.log).open == []
    ensures var t := ToolPhase(cfg, st, calls); t.Again? ==> Scan(t.st.log).open == []
  {
    hide ExecuteTools, Results, Stop, Scan, RecordOf, Flush;
    var (results, w) := ExecuteTools(st.world, calls, cfg.parallel, cfg.accepts, cfg.outputMax);
    ResultsLog(st.(world := w), calls, results);
    if results == [] {
      NoResults(st.(world := w), calls);
    }
  }

  lemma NoResults(st: State, calls: seq<ToolCall>)
    ensures Results(st, calls, []) == st
  {
  }

  /** Every budget check at the top of a turn reads a record with no compaction pass under way. */
  lemma TurnCloses(cfg: Config, st: State)
    requires Scan(st.log).open == []
    ensures var t := Turn(cfg, st); t.Again? ==> Scan(t.st.log).open == []
  {
    hide Steady, Undisturbed, Scan, Stop, Deliver, MaybeCompact, CompleteOnce, ToolPhase, PoolExhausted, Cancelled;
    var st0 := st.(world := Cancelled(PoolExhausted(st.world).1).1);
    var st1 := DrainInto(st0).1;
    var m := MaybeCompact(cfg, st1);
    CompleteOnceGrows(cfg, m.st, false);
    var c := CompleteOnce(cfg, m.st, false);
    if m.Kept? && c.Completed? {
      AnswerCloses(c.st.log, c.resp.toolCalls);
      if c.resp.toolCalls == [] {
        var (turns, w) := Drain(c.st.world);
        DeliverCloses(c.st.(world := w), turns);
      } else {
        ServedCallsAreNamed(cfg, m.st, false);
        ToolPhaseCloses(cfg, c.st, c.resp.toolCalls);
      }
    }
  }
}
