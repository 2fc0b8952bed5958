/** Past the record (agent/resume.go:234-262, 402-412): a resumed run whose live world answers as the original did goes
    on as the uninterrupted run did, its budget judged alike at every check. */
module ResumeOn {

  import opened Decimal
  import opened Chat
  import opened Summaries
  import opened Triggers
  import opened CallIds
  import opened Record
  import opened ReplayClient
  import opened ResumeClient
  import opened Worlds
  import opened Loop
  import opened LoopTurns
  import opened LoopLog
  import opened ReplayTurn
  import opened ReplayTheorem
  import opened LiveSpend
  import opened Interrupted
  import opened ReplayAlign
  import opened ReplaySim
  import opened Resume

  // ----- The world past the record -----

  /** The record has nothing left to serve. */
  predicate Spent(rs: Resumed) {
    !rs.diverged && !InPrefix(rs) && !OwnsPass(rs)
  }

  lemma AskPast(rs: Resumed, live: World, orders: seq<seq<nat>>, req: Request)
    requires Spent(rs)
    ensures var (reply, live') := Ask(live, req);
            Ask(Resuming(rs, live, orders), req) == (reply, Resuming(rs.(liveActive := true), live', orders))
  {
  }

  lemma AskSummaryPast(rs: Resumed, live: World, orders: seq<seq<nat>>, strip: string -> string,
                       partial: string -> string, entries: seq<string>)
    requires Spent(rs)
    ensures var (pass, live') := AskSummary(live, strip, partial, entries);
            AskSummary(Resuming(rs, live, orders), strip, partial, entries) == (pass, Resuming(rs, live', orders))
  {
    hide Summarize;
  }

  /** Once a live completion was served, calls are authorized and run live. */
  lemma AuthorizePast(rs: Resumed, live: World, orders: seq<seq<nat>>, call: ToolCall)
    requires Spent(rs) && rs.liveActive && Undisturbed(live)
    ensures var (d, live') := Authorize(live, call);
            Authorize(Resuming(rs, live, orders), call) == (d, Resuming(rs, live', orders))
  {
    hide Steady, Undisturbed, CurrentGroup, FirstSame, Cancelled;
    NeverCancelled(live);
    SteadyIsLive(live);
    assert RecordedDecision(rs, call) == (RunLive(-1), rs);
    var w := Resuming(rs, live, orders);
    assert Cancelled(w) == (false, w) by {
      CancelledOver(rs, live, orders);
    }
  }

  lemma CancelledOver(rs: Resumed, live: World, orders: seq<seq<nat>>)
    ensures Cancelled(Resuming(rs, live, orders)) == (Cancelled(live).0, Resuming(rs, Cancelled(live).1, orders))
    ensures Drain(Resuming(rs, live, orders)) == (Drain(live).0, Resuming(rs, Drain(live).1, orders))
    ensures PoolExhausted(Resuming(rs, live, orders)) ==
            (PoolExhausted(live).0, Resuming(rs, PoolExhausted(live).1, orders))
  {
  }

  lemma {:induction false} AuthorizeCallsPast(rs: Resumed, live: World, orders: seq<seq<nat>>, calls: seq<ToolCall>)
    requires Spent(rs) && rs.liveActive && Undisturbed(live)
    ensures var (ds, live') := AuthorizeCalls(live, calls);
            AuthorizeCalls(Resuming(rs, live, orders), calls) == (ds, Resuming(rs, live', orders)) && Undisturbed(live')
  {
    hide Authorize, Steady, Undisturbed;
    LiveDecisions(live, calls);
    if calls != [] {
      var init := calls[..|calls| - 1];
      AuthorizeCallsPast(rs, live, orders, init);
      AuthorizePast(rs, AuthorizeCalls(live, init).1, orders, calls[|calls| - 1]);
    }
  }

  lemma RunCallPast(rs: Resumed, live: World, orders: seq<seq<nat>>, call: ToolCall, d: Decision, accepts: bool,
                    max: int)
    requires Spent(rs) && rs.liveActive && d.Go? && call.id != ""
    ensures var (res, live') := RunCall(live, call, d, accepts, max);
            RunCall(Resuming(rs, live, orders), call, d, accepts, max) == (res, Resuming(rs, live', orders))
  {
    hide RunRes, ServedRes, ServeCall, CurrentGroup, FirstFit, CallById;
  }

  lemma {:induction false} SequentialPast(rs: Resumed, live: World, orders: seq<seq<nat>>, calls: seq<ToolCall>,
                                          ds: seq<Decision>, accepts: bool, max: int, n: nat)
    requires Spent(rs) && rs.liveActive && n <= |calls| == |ds| && forall c | c in calls :: c.id != ""
    ensures var (res, stopped, live') := Sequential(live, calls, ds, accepts, max, n);
            Sequential(Resuming(rs, live, orders), calls, ds, accepts, max, n) ==
              (res, stopped, Resuming(rs, live', orders))
  {
    hide RunCall, Cancelled, Spent;
    if n > 0 {
      SequentialPast(rs, live, orders, calls, ds, accepts, max, n - 1);
      var w1 := Sequential(live, calls, ds, accepts, max, n - 1).2;
      CancelledOver(rs, w1, orders);
      if ds[n - 1].Go? {
        RunCallPast(rs, Cancelled(w1).1, orders, calls[n - 1], ds[n - 1], accepts, max);
      }
    }
  }

  lemma {:induction false} ParallelPast(rs: Resumed, live: World, orders: seq<seq<nat>>, calls: seq<ToolCall>,
                                        ds: seq<Decision>, accepts: bool, max: int, order: seq<nat>)
    requires Spent(rs) && rs.liveActive && |calls| == |ds| && (forall c | c in calls :: c.id != "")
    requires forall k :: 0 <= k < |order| ==> order[k] < |calls|
    ensures var (res, live') := Parallel(live, calls, ds, accepts, max, order);
            Parallel(Resuming(rs, live, orders), calls, ds, accepts, max, order) == (res, Resuming(rs, live', orders))
  {
    hide RunCall, Spent;
    if order != [] {
      var init, i := order[..|order| - 1], order[|order| - 1];
      ParallelPast(rs, live, orders, calls, ds, accepts, max, init);
      if ds[i].Go? {
        RunCallPast(rs, Parallel(live, calls, ds, accepts, max, init).1, orders, calls[i], ds[i], accepts, max);
      }
    }
  }

  /** A tool turn past the record is the live world's. */
  lemma ToolsPast(rs: Resumed, live: World, orders: seq<seq<nat>>, calls: seq<ToolCall>, parallel: bool, accepts: bool,
                  max: int)
    requires Spent(rs) && rs.liveActive && Undisturbed(live) && (parallel ==> orders == [])
    requires forall c | c in calls :: c.id != ""
    ensures var (res, live') := ExecuteTools(live, calls, parallel, accepts, max);
            ExecuteTools(Resuming(rs, live, orders), calls, parallel, accepts, max) ==
              (res, Resuming(rs, live', orders))
  {
    hide AuthorizeCalls, Sequential, Parallel, Steady, Undisturbed, Spent;
    AuthorizeCallsPast(rs, live, orders, calls);
    var (ds, w1) := AuthorizeCalls(live, calls);
    SteadyIsLive(w1);
    SequentialPast(rs, w1, orders, calls, ds, accepts, max, |calls|);
    ParallelPast(rs, w1, orders, calls, ds, accepts, max, Identity(|calls|));
  }

  // ----- The run past the record -----

  /** Where the resumed run took over: its client, its run id, its log so far, how long the recorded log was then, and
      what had been charged. */
  datatype Base = Base(rs: Resumed, orders: seq<seq<nat>>, run: string, log: seq<Event>, n: nat, charged: int)

  /** Filling an answer's call ids gives the same in both runs: they share their id, or no call comes unnamed. */
  predicate SameIds(run: string, st: State) {
    run == st.run || (st.world.Live? && forall i :: 0 <= i < |st.world.replies| ==> Named(st.world.replies[i]))
  }

  predicate Named(r: Reply) {
    r.Answer? ==> forall c | c in r.resp.toolCalls :: c.id != ""
  }

  /** st' is st as the resumed run has it: the same events since it took over, and of the usage what the seed does not
      hold. */
  predicate Past(st: State, st': State, b: Base) {
    && Spent(b.rs) && Undisturbed(st.world) && SameIds(b.run, st)
    && st'.world == Resuming(b.rs.(liveActive := st'.world.Resuming? && st'.world.rs.liveActive), st.world, b.orders)
    && b.n <= |st.log|
    && st' == st.(world := st'.world, run := b.run, log := b.log + st.log[b.n..], usage := st'.usage,
                  charged := st.charged - b.charged, passes := st'.passes)
    && st.usage == st'.usage.Add(b.rs.seed)
  }

  lemma PastBudget(st: State, st': State, b: Base)
    requires Past(st, st', b)
    ensures Budgeted(st') == Budgeted(st) == st.usage
  {
    hide Steady, Undisturbed, SameIds, Spent;
    SteadyIsLive(st.world);
    AddZero(st.usage);
  }

  /** A change neither run's world, record or account sees. */
  lemma PastFields(st: State, st': State, b: Base, next: State, next': State)
    requires Past(st, st', b) && next.world == st.world && next.run == st.run && next.log == st.log
    requires next.usage == st.usage && next.charged == st.charged
    requires next' == next.(world := st'.world, run := st'.run, log := st'.log, usage := st'.usage,
                            charged := st'.charged, passes := next'.passes)
    ensures Past(next, next', b)
  {
    hide Steady, Undisturbed, Spent;
  }

  /** The live world moves, events are recorded and replies paid for, alike in both runs. */
  lemma PastOn(cfg: Config, st: State, st': State, b: Base, next: State, next': State, evs: seq<Event>, u: Usage)
    requires Past(st, st', b) && Undisturbed(next.world) && SameIds(b.run, next) && next.run == st.run
    requires next.log == st.log + evs && next.usage == st.usage.Add(u) && next.charged == Charged(cfg, st.charged, u)
    requires next'.world == Resuming(b.rs.(liveActive := next'.world.Resuming? && next'.world.rs.liveActive),
                                     next.world, b.orders)
    requires next' == next.(world := next'.world, run := st'.run, log := st'.log + evs, usage := st'.usage.Add(u),
                            charged := Charged(cfg, st'.charged, u), passes := next'.passes)
    ensures Past(next, next', b)
  {
    hide Steady, Undisturbed, Spent, SameIds, Usage.Add;
    AddIsAssociative(st'.usage, b.rs.seed, u);
    assert (st.log + evs)[b.n..] == st.log[b.n..] + evs;
    assert b.log + (st.log[b.n..] + evs) == b.log + st.log[b.n..] + evs;
  }

  /** The same outcome in both runs; once a completion was served, the resumed run is live. */
  predicate PastAlike(c: Completed, c': Completed, b: Base) {
    && Past(c.st, c'.st, b)
    && match c
       case Completed(resp, _) => c'.Completed? && c'.resp == resp && c'.st.world.rs.liveActive
       case Faulted(fault, _) => c'.Faulted? && c'.fault == fault
  }

  lemma FillAlike(b: Base, st: State, step: nat, req: Request)
    requires Undisturbed(st.world) && SameIds(b.run, st) && Ask(st.world, req).0.Answer?
    ensures var resp := Ask(st.world, req).0.resp;
            Fill(b.run, step, req.messages, resp) == Fill(st.run, step, req.messages, resp)
  {
    hide Filled, PlainBlocks;
    var resp := Ask(st.world, req).0.resp;
    if b.run != st.run {
      assert Named(st.world.replies[0]);
      FilledIdsAreSet(b.run, step, req.messages, resp.toolCalls);
      FilledIdsAreSet(st.run, step, req.messages, resp.toolCalls);
    }
  }

  lemma IdsStay(b: Base, st: State, req: Request)
    requires Undisturbed(st.world) && SameIds(b.run, st)
    ensures SameIds(b.run, st.(world := Ask(st.world, req).1))
  {
    hide PlainBlocks, Named;
  }

  lemma CompletePast(cfg: Config, st: State, st': State, b: Base, final: bool)
    requires Past(st, st', b)
    ensures PastAlike(Complete(cfg, st, final), Complete(cfg, st', final), b)
  {
    hide Steady, Undisturbed, Past, Complete, Ask, Fill, Charged, Usage.Add, SameIds, Wire, Spent;
    var req := Request(Wire(st.messages, cfg.accepts), final);
    var (reply, w) := Ask(st.world, req);
    PastSame(st, st', b);
    PastWorld(st, st', b);
    PastIds(st, st', b);
    AskPast(st'.world.rs, st.world, b.orders, req);
    AskIsCalm(st.world, req);
    IdsStay(b, st, req);
    var step := st.iterations + 1;
    var recorded := if reply.Answer? then Answer(Fill(st.run, step, req.messages, reply.resp)) else reply;
    if reply.Answer? {
      FillAlike(b, st, step, req);
    }
    CompletedState(cfg, st, final, req, reply, w, recorded);
    CompletedState(cfg, st', final, req, reply, Ask(st'.world, req).1, recorded);
    var c, c' := Complete(cfg, st, final), Complete(cfg, st', final);
    SameReplies(b, st.(world := w), c.st);
    PastOn(cfg, st, st', b, c.st, c'.st, [Completion(step, req, recorded, false)], Cost(recorded));
  }

  lemma PastIds(st: State, st': State, b: Base)
    requires Past(st, st', b)
    ensures SameIds(b.run, st) && b.rs == st'.world.rs.(liveActive := b.rs.liveActive)
  {
    hide Steady, Undisturbed, SameIds, Spent, Usage.Add;
  }

  /** What `Complete` leaves, given the reply and what is recorded of it. */
  lemma CompletedState(cfg: Config, st: State, final: bool, req: Request, reply: Reply, w: World, recorded: Reply)
    requires req == Request(Wire(st.messages, cfg.accepts), final) && Ask(st.world, req) == (reply, w)
    requires recorded ==
             if reply.Answer? then Answer(Fill(st.run, st.iterations + 1, req.messages, reply.resp)) else reply
    ensures var c := Complete(cfg, st, final);
            && c.st == st.(world := w, log := st.log + [Completion(st.iterations + 1, req, recorded, false)],
                           usage := st.usage.Add(Cost(recorded)), charged := Charged(cfg, st.charged, Cost(recorded)),
                           iterations := c.st.iterations, lastStop := c.st.lastStop, finalText := c.st.finalText)
            && (recorded.Answer? ==>
                  && c == Completed(recorded.resp, c.st) && c.st.iterations == st.iterations + 1
                  && c.st.lastStop == recorded.resp.stop && c.st.finalText == recorded.resp.text)
            && (!recorded.Answer? ==>
                  && c == Faulted(if recorded.Overflow? then ContextTooLong else CompletionFailed, c.st)
                  && c.st.iterations == st.iterations && c.st.lastStop == st.lastStop && c.st.finalText == st.finalText)
  {
    hide Ask, Fill, Charged, Usage.Add, Wire;
    AddZero(st.usage);
    NothingPaid(cfg, st.charged);
  }

  lemma SameReplies(b: Base, a: State, c: State)
    requires SameIds(b.run, a) && a.run == c.run && a.world == c.world
    ensures SameIds(b.run, c)
  {
  }

  lemma NothingPaid(cfg: Config, charged: int)
    ensures Charged(cfg, charged, ZERO_USAGE) == charged
  {
  }

  // ----- Compaction -----

  lemma CompactorPast(cfg: Config, st: State, st': State, b: Base)
    requires Past(st, st', b)
    ensures var (out, w) := RunCompactor(cfg, st.world, st.messages, st.triggers.stubOnly);
            RunCompactor(cfg, st'.world, st.messages, st.triggers.stubOnly) ==
              (out, Resuming(st'.world.rs, w, b.orders))
  {
    hide Steady, Undisturbed, SummaryCut, AskSummary, Summarized, SameIds, Usage.Add;
    var cut := SummaryCut(cfg.prompts, st.messages);
    SteadyIsLive(st.world);
    if cut.Cut? {
      AskSummaryPast(st'.world.rs, st.world, b.orders, cfg.strip, cfg.partial,
                     cfg.render(Wire(st.messages, cfg.accepts)[cut.from..cut.at]));
    }
  }

  lemma RepliesStay(b: Base, st: State, w: World)
    requires SameIds(b.run, st) && st.world.Live? && w.Live? && w.replies == st.world.replies
    ensures SameIds(b.run, st.(world := w))
  {
  }

  lemma CompactorKeepsReplies(cfg: Config, w: World, msgs: seq<Message>, stubOnly: bool)
    requires w.Live?
    ensures var w' := RunCompactor(cfg, w, msgs, stubOnly).1; w'.Live? && w'.replies == w.replies
  {
    hide SummaryCut, Summarize, Summarized;
  }

  lemma CompactPast(cfg: Config, st: State, st': State, b: Base)
    requires Past(st, st', b)
    ensures var (out, st1) := Compact(cfg, st);
            var (out', st1') := Compact(cfg, st');
            && out' == out && Past(st1, st1', b) && st1.messages == st.messages
            && st1.triggers == st.triggers && st1.iterations == st.iterations
  {
    hide Steady, Undisturbed, RunCompactor, Charged, Usage.Add, Spend, PurposeEvents, SameIds, Spent;
    CompactorPast(cfg, st, st', b);
    CompactorIsCalm(cfg, st.world, st.messages, st.triggers.stubOnly);
    SteadyIsLive(st.world);
    CompactorKeepsReplies(cfg, st.world, st.messages, st.triggers.stubOnly);
    var (out, w) := RunCompactor(cfg, st.world, st.messages, st.triggers.stubOnly);
    RepliesStay(b, st, w);
    var (_, st1) := Compact(cfg, st);
    var (_, st1') := Compact(cfg, st');
    SameReplies(b, st.(world := w), st1);
    PastOn(cfg, st, st', b, st1, st1', PurposeEvents(st.iterations + 1, out.calls), out.Usage());
  }

  lemma EmitPast(cfg: Config, st: State, st': State, b: Base, ev: Event)
    requires Past(st, st', b)
    ensures Past(Emit(st, ev), Emit(st', ev), b)
  {
    hide Steady, Undisturbed, Charged, Usage.Add, SameIds, Spent;
    AddZero(st.usage);
    AddZero(st'.usage);
    NothingPaid(cfg, st.charged);
    NothingPaid(cfg, st'.charged);
    SameReplies(b, st, Emit(st, ev));
    PastOn(cfg, st, st', b, Emit(st, ev), Emit(st', ev), [ev], ZERO_USAGE);
  }

  lemma MaybeCompactPast(cfg: Config, st: State, st': State, b: Base)
    requires Past(st, st', b)
    ensures var m, m' := MaybeCompact(cfg, st), MaybeCompact(cfg, st');
            Past(m.st, m'.st, b) && (m'.Kept? <==> m.Kept?)
  {
    hide Past, Compact, EstimateTokens, Wire, Spend, Triggers.Rearm, Triggers.Due;
    PastSame(st, st', b);
    var before := EstimateTokens(Wire(st.messages, cfg.accepts));
    var t := st.triggers;
    if (t.budget > 0 || t.proactive) && t.Due(before) {
      CompactPast(cfg, st, st', b);
      var (out, st1) := Compact(cfg, st);
      var (out', st1') := Compact(cfg, st');
      if out.ok {
        PastSame(st1, st1', b);
        var after := EstimateTokens(Wire(out.messages, cfg.accepts));
        var ev := Compacted(st1.iterations + 1, before, after, false);
        var a, a' := st1.(messages := out.messages), st1'.(messages := out.messages);
        PastFields(st1, st1', b, a, a');
        EmitPast(cfg, a, a', b, ev);
        var st2, st2' := Applied(cfg, st1, out, before), Applied(cfg, st1', out, before);
        assert Past(st2, st2', b);
        PastSame(st2, st2', b);
        PastFields(st2, st2', b, MaybeCompact(cfg, st).st, MaybeCompact(cfg, st').st);
      }
    }
  }

  lemma PastSame(st: State, st': State, b: Base)
    requires Past(st, st', b)
    ensures st' == st.(world := st'.world, run := st'.run, log := st'.log, usage := st'.usage,
                       charged := st'.charged, passes := st'.passes)
    ensures st'.world.Resuming? && st'.run == b.run && Undisturbed(st.world) && st.world.Live?
  {
    hide Steady, Undisturbed, SameIds, Spent;
    SteadyIsLive(st.world);
  }

  // ----- One turn's completion -----

  lemma RetryPast(cfg: Config, st: State, st': State, b: Base, st1: State, st1': State, out: CompactOut)
    requires Past(st, st', b) && Past(st1, st1', b)
    ensures Past(RetryState(cfg, st, st1, out), RetryState(cfg, st', st1', out), b)
  {
    hide Past, EstimateTokens, Wire, Spend, Triggers.Refusal;
    PastSame(st, st', b);
    PastSame(st1, st1', b);
    var ev := Compacted(st.iterations + 1, EstimateTokens(st.messages), EstimateTokens(out.messages), true);
    EmitPast(cfg, st1, st1', b, ev);
    PastSame(Emit(st1, ev), Emit(st1', ev), b);
    PastFields(Emit(st1, ev), Emit(st1', ev), b, RetryState(cfg, st, st1, out), RetryState(cfg, st', st1', out));
  }

  lemma RecoverPast(cfg: Config, st: State, st': State, b: Base, final: bool)
    requires Past(st, st', b)
    ensures PastAlike(Recover(cfg, st, final), Recover(cfg, st', final), b)
  {
    hide Past, Compact, Complete, RetryState, Wire;
    PastSame(st, st', b);
    CompactPast(cfg, st, st', b);
    var (out, st1) := Compact(cfg, st);
    var st1' := Compact(cfg, st').1;
    RetryPast(cfg, st, st', b, st1, st1', out);
    CompletePast(cfg, RetryState(cfg, st, st1, out), RetryState(cfg, st', st1', out), b, final);
  }

  lemma RecoveringPast(cfg: Config, st: State, st': State, b: Base, final: bool)
    requires Past(st, st', b)
    ensures PastAlike(CompleteRecovering(cfg, st, final), CompleteRecovering(cfg, st', final), b)
  {
    hide Past, Complete, Recover;
    CompletePast(cfg, st, st', b, final);
    RecoverPast(cfg, Complete(cfg, st, final).st, Complete(cfg, st', final).st, b, final);
  }

  lemma AppendPast(st: State, st': State, b: Base, m: Message, text: string)
    requires Past(st, st', b)
    ensures Past(Append(st, m), Append(st', m), b)
    ensures Past(Append(st, m).(finalText := text), Append(st', m).(finalText := text), b)
  {
    hide Past;
    PastSame(st, st', b);
    PastFields(st, st', b, Append(st, m), Append(st', m));
    PastFields(st, st', b, Append(st, m).(finalText := text), Append(st', m).(finalText := text));
  }

  lemma CompleteOncePast(cfg: Config, st: State, st': State, b: Base, final: bool)
    requires Past(st, st', b)
    ensures PastAlike(CompleteOnce(cfg, st, final), CompleteOnce(cfg, st', final), b)
  {
    hide Past, CompleteRecovering, Stitch;
    RecoveringPast(cfg, st, st', b, final);
    var c, c' := CompleteRecovering(cfg, st, final), CompleteRecovering(cfg, st', final);
    if c.Completed? {
      var m := TextMessage(User, cfg.prompts.continueText);
      AppendPast(c.st, c'.st, b, c.resp.Turn(), "");
      var st1, st1' := Append(c.st, c.resp.Turn()), Append(c'.st, c.resp.Turn());
      AppendPast(st1, st1', b, m, "");
      RecoveringPast(cfg, Append(st1, m), Append(st1', m), b, final);
      var d, d' := CompleteRecovering(cfg, Append(st1, m), final), CompleteRecovering(cfg, Append(st1', m), final);
      if d.Completed? {
        AppendPast(d.st, d'.st, b, d.resp.Turn(), Stitch(c.resp.text, d.resp.text));
      }
    }
  }

  // ----- Turns -----

  predicate TurnAlike(t: Turned, t': Turned, b: Base) {
    && Past(t.st, t'.st, b)
    && match t
       case Again(_) => t'.Again?
       case Ended(_) => t'.Ended?
       case Broke(fault, _) => t'.Broke? && t'.fault == fault
  }

  lemma StopPast(cfg: Config, st: State, st': State, b: Base, reason: Truncation)
    requires Past(st, st', b)
    ensures TurnAlike(Stop(cfg, st, reason), Stop(cfg, st', reason), b)
  {
    hide Past, MaybeCompact, CompleteOnce;
    PastSame(st, st', b);
    PastFields(st, st', b, st.(truncation := reason), st'.(truncation := reason));
    var m := TextMessage(User, cfg.finalizePrompt);
    var t := st.triggers.(stubOnly := reason.TokenBudget? || reason.BudgetPool?);
    AppendPast(st, st', b, m, "");
    var a, a' := Append(st, m).(finalized := true, triggers := t), Append(st', m).(finalized := true, triggers := t);
    PastFields(Append(st, m), Append(st', m), b, a, a');
    MaybeCompactPast(cfg, a, a', b);
    var k, k' := MaybeCompact(cfg, a).st, MaybeCompact(cfg, a').st;
    CompleteOncePast(cfg, k, k', b, true);
    var c, c' := CompleteOnce(cfg, k, true), CompleteOnce(cfg, k', true);
    PastSame(c.st, c'.st, b);
    PastFields(c.st, c'.st, b, c.st.(truncation := reason), c'.st.(truncation := reason));
  }

  lemma {:induction false} ResultsPast(cfg: Config, st: State, st': State, b: Base, calls: seq<ToolCall>,
                                       results: seq<ToolRes>)
    requires Past(st, st', b) && |results| <= |calls|
    ensures Past(Results(st, calls, results), Results(st', calls, results), b)
  {
    hide Past, RecordOf, ResMessage;
    if results != [] {
      var n := |results| - 1;
      ResultsPast(cfg, st, st', b, calls, results[..n]);
      var a, a' := Results(st, calls, results[..n]), Results(st', calls, results[..n]);
      PastSame(st, st', b);
      var ev := ToolRun(st.iterations, RecordOf(calls[n], results[n]));
      EmitPast(cfg, a, a', b, ev);
      AppendPast(Emit(a, ev), Emit(a', ev), b, ResMessage(results[n], calls[n].id), "");
    }
  }

  /** The tools' world moves alike. */
  lemma WorldPast(st: State, st': State, b: Base, w: World)
    requires Past(st, st', b) && Undisturbed(w) && w.Live? && st.world.Live? && w.replies == st.world.replies
    ensures Past(st.(world := w), st'.(world := Resuming(st'.world.rs, w, b.orders)), b)
  {
    hide Steady, Undisturbed, Spent;
  }

  lemma ToolCheckPast(cfg: Config, st: State, st': State, b: Base, calls: seq<ToolCall>)
    requires Past(st, st', b) && st'.world.rs.liveActive && (forall c | c in calls :: c.id != "")
    requires cfg.parallel ==> b.orders == []
    ensures Past(ToolCheck(cfg, st, calls), ToolCheck(cfg, st', calls), b)
  {
    hide Past, ExecuteTools, Results, Steady, Undisturbed, LiveResult;
    PastSame(st, st', b);
    PastWorld(st, st', b);
    ToolsPast(st'.world.rs, st.world, b.orders, calls, cfg.parallel, cfg.accepts, cfg.outputMax);
    LiveTurn(st.world, calls, cfg.parallel, cfg.accepts, cfg.outputMax);
    var (rs, w) := ExecuteTools(st.world, calls, cfg.parallel, cfg.accepts, cfg.outputMax);
    ExecuteStock(st.world, calls, cfg.parallel, cfg.accepts, cfg.outputMax);
    StockReplies(st.world, w);
    WorldPast(st, st', b, w);
    ResultsPast(cfg, st.(world := w), st'.(world := Resuming(st'.world.rs, w, b.orders)), b, calls, rs);
  }

  lemma StockReplies(w: World, w': World)
    requires SameStock(w, w') && w.Live? && w'.Live?
    ensures w'.replies == w.replies
  {
  }

  lemma PastWorld(st: State, st': State, b: Base)
    requires Past(st, st', b)
    ensures st'.world == Resuming(st'.world.rs, st.world, b.orders) && Spent(st'.world.rs)
  {
    hide Steady, Undisturbed, SameIds, Usage.Add;
  }

  /** Nothing stops either run. */
  lemma PastIsQuiet(st: State, st': State, b: Base)
    requires Past(st, st', b)
    ensures Quiet(st.world) && Quiet(st'.world)
  {
    hide Past, Steady, Undisturbed, Cancelled, Drain, PoolExhausted;
    PastSame(st, st', b);
    PastWorld(st, st', b);
    NeverCancelled(st.world);
    CancelledOver(st'.world.rs, st.world, b.orders);
  }

  lemma ToolPhasePast(cfg: Config, st: State, st': State, b: Base, calls: seq<ToolCall>)
    requires Past(st, st', b) && st'.world.rs.liveActive && (forall c | c in calls :: c.id != "")
    requires cfg.parallel ==> b.orders == []
    ensures TurnAlike(ToolPhase(cfg, st, calls), ToolPhase(cfg, st', calls), b)
  {
    hide Past, ToolCheck, ToolPhase, Stop, Quiet, Budgeted;
    ToolCheckPast(cfg, st, st', b, calls);
    var a, a' := ToolCheck(cfg, st, calls), ToolCheck(cfg, st', calls);
    PastIsQuiet(a, a', b);
    PastBudget(a, a', b);
    QuietPhase(cfg, st, calls);
    QuietPhase(cfg, st', calls);
    StopPast(cfg, a, a', b, TokenBudget);
  }

  lemma QuietPhase(cfg: Config, st: State, calls: seq<ToolCall>)
    requires (forall c | c in calls :: c.id != "") && Quiet(ToolCheck(cfg, st, calls).world)
    ensures var a := ToolCheck(cfg, st, calls);
            ToolPhase(cfg, st, calls) == if OverBudget(cfg, Budgeted(a)) then Stop(cfg, a, TokenBudget) else Again(a)
  {
    hide ExecuteTools, Results, Stop, OverBudget, Budgeted, Cancelled, Drain, PoolExhausted;
    var a := ToolCheck(cfg, st, calls);
    assert a.(world := a.world) == a;
  }

  lemma NoCallsPast(cfg: Config, st: State, st': State, b: Base, resp: Response)
    requires Past(st, st', b)
    ensures TurnAlike(NoCalls(cfg, st, resp), NoCalls(cfg, st', resp), b)
  {
    hide Past, Drain;
    PastSame(st, st', b);
    PastIsQuiet(st, st', b);
    QuietMeans(st.world);
    QuietMeans(st'.world);
    assert st.(world := st.world) == st && st'.(world := st'.world) == st';
    PastFields(st, st', b, st.(truncation := OutputCap), st'.(truncation := OutputCap));
    PastFields(st, st', b, st.(truncation := NoAnswer), st'.(truncation := NoAnswer));
    var n, n' := st.(nudges := st.nudges + 1), st'.(nudges := st.nudges + 1);
    PastFields(st, st', b, n, n');
    AppendPast(n, n', b, TextMessage(User, cfg.prompts.emptyTurnNudge), "");
  }

  lemma BodyPast(cfg: Config, st: State, st': State, b: Base)
    requires Past(st, st', b) && (cfg.parallel ==> b.orders == [])
    ensures TurnAlike(Body(cfg, st), Body(cfg, st'), b)
  {
    hide Past, Body, DrainInto, MaybeCompact, CompleteOnce, NoCalls, ToolPhase, Drain;
    PastIsQuiet(st, st', b);
    QuietMeans(st.world);
    QuietMeans(st'.world);
    NothingDrained(st);
    NothingDrained(st');
    BodyOf(cfg, st);
    BodyOf(cfg, st');
    MaybeCompactPast(cfg, st, st', b);
    var m, m' := MaybeCompact(cfg, st), MaybeCompact(cfg, st');
    CompleteOncePast(cfg, m.st, m'.st, b, false);
    var c, c' := CompleteOnce(cfg, m.st, false), CompleteOnce(cfg, m'.st, false);
    if m.Kept? && c.Completed? {
      NoCallsPast(cfg, c.st, c'.st, b, c.resp);
      ToolPhasePast(cfg, c.st, c'.st, b, c.resp.toolCalls);
    }
  }

  lemma TurnPast(cfg: Config, st: State, st': State, b: Base)
    requires Past(st, st', b) && (cfg.parallel ==> b.orders == [])
    ensures TurnAlike(Turn(cfg, st), Turn(cfg, st'), b)
  {
    hide Past, Body, Stop, Cancelled, PoolExhausted, Budgeted, OverBudget;
    PastSame(st, st', b);
    PastIsQuiet(st, st', b);
    QuietMeans(st.world);
    QuietMeans(st'.world);
    assert st.(world := st.world) == st && st'.(world := st'.world) == st';
    PastBudget(st, st', b);
    StopPast(cfg, st, st', b, MaxIterations);
    StopPast(cfg, st, st', b, TokenBudget);
    BodyPast(cfg, st, st', b);
  }

  lemma {:induction false} RunPast(cfg: Config, st: State, st': State, b: Base)
    requires Past(st, st', b) && (cfg.parallel ==> b.orders == [])
    ensures var run, run' := Run(cfg, st), Run(cfg, st'); run'.fault == run.fault && Past(run.st, run'.st, b)
    decreases Remaining(st.world)
  {
    hide Past, Turn;
    TurnPast(cfg, st, st', b);
    if Turn(cfg, st).Again? {
      RunPast(cfg, Turn(cfg, st).st, Turn(cfg, st').st, b);
    }
  }

  /** At the top of every later turn. */
  lemma {:induction false} TurnsPast(cfg: Config, st: State, st': State, b: Base, k: nat)
    requires Past(st, st', b) && (cfg.parallel ==> b.orders == [])
    ensures TurnsFrom(cfg, st', k).Some? <==> TurnsFrom(cfg, st, k).Some?
    ensures TurnsFrom(cfg, st, k).Some? ==> Past(TurnsFrom(cfg, st, k).value, TurnsFrom(cfg, st', k).value, b)
  {
    hide Past, Turn;
    if k > 0 {
      TurnsPast(cfg, st, st', b, k - 1);
      if TurnsFrom(cfg, st, k - 1).Some? {
        TurnPast(cfg, TurnsFrom(cfg, st, k - 1).value, TurnsFrom(cfg, st', k - 1).value, b);
      }
    }
  }

  // ----- The theorem -----

  lemma {:induction false} TurnsKeepId(cfg: Config, st: State, k: nat)
    requires TurnsFrom(cfg, st, k).Some?
    ensures TurnsFrom(cfg, st, k).value.run == st.run
  {
    hide Turn, FutureOk, PastOk;
    if k > 0 {
      TurnsKeepId(cfg, st, k - 1);
      TurnWritesForward(cfg, TurnsFrom(cfg, st, k - 1).value);
    }
  }

  lemma {:induction false} TurnsAccount(cfg: Config, live: World, st: State, k: nat)
    requires Accounted(cfg, live, st) && TurnsFrom(cfg, st, k).Some?
    ensures Accounted(cfg, live, TurnsFrom(cfg, st, k).value)
  {
    hide Turn, Accounted;
    if k > 0 {
      TurnsAccount(cfg, live, st, k - 1);
      TurnAccounts(cfg, live, TurnsFrom(cfg, st, k - 1).value);
    }
  }

  /** The replies a run has left are among those it began with. */
  lemma StillNamed(cfg: Config, live: World, st: State)
    requires live.Live? && st.world.Live? && Accounted(cfg, live, st)
    requires forall i :: 0 <= i < |live.replies| ==> Named(live.replies[i])
    ensures forall i :: 0 <= i < |st.world.replies| ==> Named(st.world.replies[i])
  {
    hide Fees, PassFees, Flat, Named;
    var m: nat, slices :| Took(cfg, live, st, m, slices);
    forall i | 0 <= i < |st.world.replies| ensures Named(st.world.replies[i]) {
      assert st.world.replies[i] == live.replies[m + i];
    }
  }

  /** A run cut off at the end of a turn, resumed where the record has nothing more to give. */
  lemma SpentAtTheCut(st: State, st': State, r: Recording)
    requires Rel(st, st', r) && r.events == st.log && st'.world.Resuming?
    ensures Spent(st'.world.rs)
  {
    hide Rel, Scan, Groups, UsedIs, Flush;
    RelAligned(st, st', r);
  }

  lemma NothingSince(log: seq<Event>, free: seq<Event>)
    ensures free == free + log[|log|..]
  {
  }

  /** The base the resumed run goes on from. */
  function BaseOf(st: State, st': State): Base
    requires st'.world.Resuming?
  {
    Base(st'.world.rs, st'.world.orders, st'.run, Free(st.log), |st.log|, st.charged)
  }

  lemma PastBegins(st: State, st': State, r: Recording)
    requires Rel(st, st', r) && r.events == st.log && r.behind == Some(st.world) && SameIds(st'.run, st)
    ensures st'.world.Resuming? && Past(st, st', BaseOf(st, st'))
  {
    hide Rel, Free, AllUnpaid, Steady, Undisturbed, SameIds, Spent, Usage.Add;
    RelSame(st, st', r);
    RelAligned(st, st', r);
    SpentAtTheCut(st, st', r);
    NothingSince(st.log, Free(st.log));
    AddZero(st.usage);
  }

  /** `at` is the recorded run after k turns, its record fit to be resumed from. */
  ghost predicate CutAfter(cfg: Config, id: string, seed: seq<Message>, task: Message, w: World, k: nat, at: State) {
    && Steady(w) && TurnsFrom(cfg, Begin(cfg, id, seed, task, w.tools, w), k) == Some(at)
    && Answered(at.log) > 0 && (forall i :: 0 <= i < |at.log| ==> DistinctCalls(at.log[i]))
    && AllHarmless(FirstTriggers(cfg), at.passes)
  }

  /** A run resumed at `at` ended as the uninterrupted run: the same fault, history, iterations, answer and truncation,
      the same events since the cut, and the same budgeted usage, of which its own is what the record did not serve. */
  predicate EndsAlike(again: Ending, run: Ending, at: State) {
    && again.fault == run.fault && |at.log| <= |run.st.log|
    && again.st == run.st.(world := again.st.world, run := again.st.run, passes := again.st.passes,
                           log := Free(at.log) + run.st.log[|at.log|..], usage := again.st.usage,
                           charged := run.st.charged - at.charged)
    && run.st.usage == again.st.usage.Add(at.usage) && Budgeted(again.st) == Budgeted(run.st)
  }

  /** The run ids are the same, or no answer leaves a call unnamed. */
  predicate IdsAgree(id: string, id': string, w: World) {
    id' == id || (w.Live? && forall i :: 0 <= i < |w.replies| ==> Named(w.replies[i]))
  }

  /** The resumed run goes on as the uninterrupted one. A run that is not steered is cut off after any of its turns, by
      its context, the pool or a crash, and resumed over a live world that answers as the original would have. Then it
      ends as the uninterrupted run does. */
  lemma ResumeEndsAlike(cfg: Config, id: string, id': string, seed: seq<Message>, task: Message, w: World,
                        orders: seq<seq<nat>>, k: nat, at: State)
    requires CutAfter(cfg, id, seed, task, w, k, at) && IdsAgree(id, id', w) && (cfg.parallel ==> orders == [])
    ensures w.Live? && Calmed(at.world).Live? && NewResume(at.log).Some?
    ensures EndsAlike(Run(cfg, BeginResumed(cfg, id', seed, task, at.log, Calmed(at.world), orders)),
                      Run(cfg, Begin(cfg, id, seed, task, w.tools, Calmed(w))), at)
  {
    hide CutAfter, IdsAgree, Steady, Undisturbed, Run, Begin, NewResume, TurnsFrom, Calmed, Past, Free, Budgeted,
         BeginResumed, Usage.Add;
    var at' := ReadyToGoOn(cfg, id, id', seed, task, w, orders, k, at);
    var b := BaseOf(CalmedState(at), at');
    var st' := BeginResumed(cfg, id', seed, task, at.log, Calmed(at.world), orders);
    UninterruptedFrom(cfg, id, seed, task, w, k, at);
    RunFrom(cfg, st', k);
    RunPast(cfg, CalmedState(at), at', b);
    var run, again := Run(cfg, CalmedState(at)), Run(cfg, at');
    PastBudget(run.st, again.st, b);
    PastMeans(run.st, again.st, b);
  }

  /** So the token budget is judged as in the uninterrupted run at the top of every later turn, and the run goes on for
      as many turns. */
  lemma ResumeChecksAlike(cfg: Config, id: string, id': string, seed: seq<Message>, task: Message, w: World,
                          orders: seq<seq<nat>>, k: nat, at: State, j: nat)
    requires CutAfter(cfg, id, seed, task, w, k, at) && IdsAgree(id, id', w) && (cfg.parallel ==> orders == [])
    ensures w.Live? && Calmed(at.world).Live? && NewResume(at.log).Some?
    ensures var s := TurnsFrom(cfg, Begin(cfg, id, seed, task, w.tools, Calmed(w)), k + j);
            var s' := TurnsFrom(cfg, BeginResumed(cfg, id', seed, task, at.log, Calmed(at.world), orders), k + j);
            && (s'.Some? <==> s.Some?)
            && (s.Some? ==> s'.value.messages == s.value.messages && Budgeted(s'.value) == Budgeted(s.value))
  {
    hide CutAfter, IdsAgree, Steady, Undisturbed, Run, Begin, NewResume, TurnsFrom, Calmed, Past, Free, Budgeted,
         BeginResumed, Usage.Add;
    var at' := ReadyToGoOn(cfg, id, id', seed, task, w, orders, k, at);
    var b := BaseOf(CalmedState(at), at');
    var st' := BeginResumed(cfg, id', seed, task, at.log, Calmed(at.world), orders);
    var st := Begin(cfg, id, seed, task, w.tools, Calmed(w));
    UninterruptedFrom(cfg, id, seed, task, w, k, at);
    TurnsAdd(cfg, st, k, j);
    TurnsAdd(cfg, st', k, j);
    TurnsPast(cfg, CalmedState(at), at', b, j);
    if TurnsFrom(cfg, CalmedState(at), j).Some? {
      var s, s' := TurnsFrom(cfg, CalmedState(at), j).value, TurnsFrom(cfg, at', j).value;
      PastBudget(s, s', b);
      PastSame(s, s', b);
    }
  }

  lemma {:induction false} TurnsAdd(cfg: Config, st: State, k: nat, j: nat)
    requires TurnsFrom(cfg, st, k).Some?
    ensures TurnsFrom(cfg, st, k + j) == TurnsFrom(cfg, TurnsFrom(cfg, st, k).value, j)
  {
    hide Turn;
    if j > 0 {
      TurnsAdd(cfg, st, k, j - 1);
    }
  }

  /** The uninterrupted run passes through the cut. */
  lemma UninterruptedFrom(cfg: Config, id: string, seed: seq<Message>, task: Message, w: World, k: nat, at: State)
    requires CutAfter(cfg, id, seed, task, w, k, at)
    ensures w.Live?
    ensures var st := Begin(cfg, id, seed, task, w.tools, Calmed(w));
            TurnsFrom(cfg, st, k) == Some(CalmedState(at)) && Run(cfg, st) == Run(cfg, CalmedState(at))
  {
    hide Steady, Undisturbed, Run, Begin, TurnsFrom, Calmed, DistinctCalls, Scan, AllHarmless;
    CalmedIsUndisturbed(w);
    BeginCalmed(cfg, id, seed, task, w);
    TurnsCalmed(cfg, Begin(cfg, id, seed, task, w.tools, w), k);
    RunFrom(cfg, Begin(cfg, id, seed, task, w.tools, Calmed(w)), k);
  }

  lemma PastMeans(st: State, st': State, b: Base)
    requires Past(st, st', b)
    ensures b.n <= |st.log| && st.usage == st'.usage.Add(b.rs.seed)
    ensures st' == st.(world := st'.world, run := st'.run, passes := st'.passes, log := b.log + st.log[b.n..],
                       usage := st'.usage, charged := st.charged - b.charged)
  {
    hide Steady, Undisturbed, SameIds, Spent, Usage.Add;
  }

  /** At the cut the resumed run stands ready to go on. */
  lemma ReadyToGoOn(cfg: Config, id: string, id': string, seed: seq<Message>, task: Message, w: World,
                    orders: seq<seq<nat>>, k: nat, at: State) returns (at': State)
    requires CutAfter(cfg, id, seed, task, w, k, at) && IdsAgree(id, id', w) && (cfg.parallel ==> orders == [])
    ensures w.Live? && at.world.Live? && Calmed(at.world).Live? && NewResume(at.log).Some?
    ensures TurnsFrom(cfg, BeginResumed(cfg, id', seed, task, at.log, Calmed(at.world), orders), k) == Some(at')
    ensures at'.world.Resuming? && Seed(at'.world) == at.usage && (cfg.parallel ==> at'.world.orders == [])
    ensures Past(CalmedState(at), at', BaseOf(CalmedState(at), at'))
  {
    hide Steady, Undisturbed, Quiet, Run, Begin, NewResume, DistinctCalls, AllHarmless, TurnsFrom, Calmed, InStep,
         Past, Free, Scan, Rel, BeginResumed, IdsAgree, SameIds;
    CalmedIsUndisturbed(w);
    var live := Calmed(at.world);
    CutHolds(cfg, id, seed, task, w, k, at);
    ResumedTurnsInStep(cfg, id, id', seed, task, w, at.log, live, orders, k, cfg.parallel);
    var st' := BeginResumed(cfg, id', seed, task, at.log, live, orders);
    at' := TurnsFrom(cfg, st', k).value;
    var r := Partial(cfg, at.log, at, live, cfg.parallel);
    InStepRel(CalmedState(at), at', r);
    RelAligned(CalmedState(at), at', r);
    BeginIds(cfg, id, id', seed, task, w, at.log, live, orders);
    TurnsKeepId(cfg, st', k);
    IdsStillAgree(cfg, id, id', seed, task, w, k, at);
    PastBegins(CalmedState(at), at', r);
  }

  lemma IdsStillAgree(cfg: Config, id: string, id': string, seed: seq<Message>, task: Message, w: World, k: nat,
                      at: State)
    requires CutAfter(cfg, id, seed, task, w, k, at) && IdsAgree(id, id', w)
    ensures SameIds(id', CalmedState(at))
  {
    hide Steady, Undisturbed, Run, Begin, DistinctCalls, AllHarmless, TurnsFrom, Calmed, Accounted, Named, Scan;
    CalmedIsUndisturbed(w);
    var st := Begin(cfg, id, seed, task, w.tools, w);
    BeginRun(cfg, id, seed, task, w);
    TurnsKeepId(cfg, st, k);
    if id' != id {
      BeginAccounts(cfg, id, seed, task, w.tools, w);
      LiveItself(w);
      TurnsAccount(cfg, w, st, k);
      TurnsCalmed(cfg, st, k);
      SteadyIsLive(at.world);
      StillNamed(cfg, w, at);
      CalmedReplies(at.world);
    }
  }

  lemma BeginRun(cfg: Config, id: string, seed: seq<Message>, task: Message, w: World)
    requires w.Live?
    ensures Begin(cfg, id, seed, task, w.tools, w).run == id && Begin(cfg, id, seed, task, w.tools, w).world == w
  {
  }

  lemma CutHolds(cfg: Config, id: string, seed: seq<Message>, task: Message, w: World, k: nat, at: State)
    requires CutAfter(cfg, id, seed, task, w, k, at)
    ensures at.world.Live? && CutOff(cfg, id, seed, task, w, at.log, Calmed(at.world))
  {
    hide Steady, Undisturbed, Run, Begin, DistinctCalls, TurnsFrom, Calmed, Scan, Turn, AllHarmless;
    CalmedIsUndisturbed(w);
    var st := Begin(cfg, id, seed, task, w.tools, w);
    BeginCalmed(cfg, id, seed, task, w);
    TurnsCalmed(cfg, st, k);
    TurnsKeepTools(cfg, st, k);
    CalmedIsUndisturbed(at.world);
    NeverCancelled(Calmed(at.world));
    RunFrom(cfg, st, k);
    RunWritesForward(cfg, at);
    FutureMeans(at, RecordingOf(Run(cfg, at).st));
    CoversMeans(RecordingOf(Run(cfg, at).st), at);
  }

  lemma {:induction false} TurnsKeepTools(cfg: Config, st: State, k: nat)
    requires Steady(st.world) && TurnsFrom(cfg, st, k).Some?
    ensures var w := TurnsFrom(cfg, st, k).value.world;
            st.world.Live? && w.Live? && Steady(w) && w.tools == st.world.tools
  {
    hide Steady, Undisturbed, Turn;
    SteadyIsLive(st.world);
    if k > 0 {
      TurnsKeepTools(cfg, st, k - 1);
      TurnIsCalm(cfg, TurnsFrom(cfg, st, k - 1).value);
      SteadyIsLive(TurnsFrom(cfg, st, k).value.world);
    }
  }

  lemma LiveItself(w: World)
    requires w.Live?
    ensures LiveOf(w) == w
  {
  }

  lemma CalmedReplies(w: World)
    requires w.Live?
    ensures Calmed(w).Live? && Calmed(w).replies == w.replies
  {
  }

  lemma BeginIds(cfg: Config, id: string, id': string, seed: seq<Message>, task: Message, w: World, rec: seq<Event>,
                 live: World, orders: seq<seq<nat>>)
    requires w.Live? && live.Live? && NewResume(rec).Some?
    ensures BeginResumed(cfg, id', seed, task, rec, live, orders).run == id'
  {
  }
}
