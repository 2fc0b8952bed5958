/** The mirrored run simulates the recorded one, completion by completion: every loop function, run on the replay or
    the resume client in a mirrored state, does what it did in the recorded run. */
module ReplaySim {

  import opened Decimal
  import opened Chat
  import opened Summaries
  import opened Triggers
  import opened CallIds
  import opened Record
  import opened ReplayClient
  import opened ReplayScan
  import opened ResumeClient
  import opened Worlds
  import opened Loop
  import opened LoopLog
  import opened LoopPasses
  import opened ReplayAlign

  /** The same answer, up to its usage. */
  predicate SameAnswer(a: Response, b: Response) {
    b == a.(usage := b.usage)
  }

  /** The same outcome in the mirrored state. */
  ghost predicate Mirrors(c: Completed, c': Completed, r: Recording) {
    && Rel(c.st, c'.st, r)
    && (c.Completed? ==> c'.Completed? && SameAnswer(c.resp, c'.resp))
    && (c.Faulted? ==> c'.Faulted? && c'.fault == c.fault)
  }

  /** Faults a record can replay. */
  predicate Replays(c: Completed) {
    c.Faulted? ==> c.fault != CompletionFailed && c.fault != CompactionFailed
  }

  // ----- Mirrored states -----

  lemma RelSame(st: State, st': State, r: Recording)
    requires Rel(st, st', r)
    ensures st'.messages == st.messages && st'.triggers == st.triggers && st'.iterations == st.iterations
    ensures st'.finalized == st.finalized && st'.nudges == st.nudges && |st'.log| == |st.log|
    ensures st' == Echo(st, st'.world, st'.run) && !st'.world.Live? && Undisturbed(st.world) && st.world.Live?
    ensures Budgeted(st') == Budgeted(st) == st.usage
  {
    hide Aligned, TailIds, Scan, Done, After, MarksOf;
    AddZero(st.usage);
  }

  /** A change of what the mirrored worlds do not see. */
  lemma RelFields(st: State, st': State, a: State, r: Recording)
    requires Rel(st, st', r)
    requires a.log == st.log && a.passes == st.passes && a.usage == st.usage && a.world == st.world
    requires PendingOk(a) && Armed(r.start, a)
    ensures Rel(a, Echo(a, st'.world, st'.run), r)
  {
    hide Aligned, Steady, Undisturbed, TailIds, Scan, Done, After, MarksOf;
  }

  lemma ArmedSame(t0: Triggers, a: State, b: State)
    requires Armed(t0, a) && a.passes == b.passes && b.triggers == a.triggers.(stubOnly := b.triggers.stubOnly)
    ensures Armed(t0, b)
  {
    hide After;
  }

  lemma RelArmed(st: State, st': State, r: Recording)
    requires Rel(st, st', r)
    ensures Armed(r.start, st) && PendingOk(st)
  {
    hide Aligned, Steady, Undisturbed, TailIds, Scan, Done, After, MarksOf;
  }

  lemma WireKeepsTail(msgs: seq<Message>, accepts: bool)
    ensures TailIds(Wire(msgs, accepts)) == TailIds(msgs)
  {
    hide TailIds;
    TailSkeleton(msgs, Wire(msgs, accepts));
  }

  lemma RequestPasses(st: State, accepts: bool)
    requires PendingOk(st)
    ensures Scan(st.log).pending == [] ||
            Scan(st.log).pending == TrailingIds(Wire(st.messages, accepts), |Scan(st.log).pending|)
  {
    hide Scan, TailIds, TrailingIds;
    WireKeepsTail(st.messages, accepts);
    TailIsTrailing(Wire(st.messages, accepts));
  }

  /** What the run recorded for its next request. */
  lemma CompleteRecords(cfg: Config, st: State, final: bool)
    ensures var c := Complete(cfg, st, final);
            var req := Request(Wire(st.messages, cfg.accepts), final);
            var reply := Ask(st.world, req).0;
            && c.st == c.st.(world := Ask(st.world, req).1)
            && (reply.Answer? ==>
                  var resp := Fill(st.run, st.iterations + 1, req.messages, reply.resp);
                  && c == Completed(resp, Fold(cfg,
                                               Emit(st.(world := c.st.world), Completion(st.iterations + 1, req,
                                                   Answer(resp), false)), resp)))
            && (reply.Overflow? ==>
                c == Faulted(ContextTooLong, Emit(st.(world := c.st.world),
                                                  Completion(st.iterations + 1, req, reply, false))))
            && (reply.Failed? ==>
                c == Faulted(CompletionFailed, Emit(st.(world := c.st.world),
                                                    Completion(st.iterations + 1, req, reply, false))))
  {
    hide Ask, Filled, Charged;
  }

  /** A response that was recorded has its ids, so filling it again, in whatever run, changes nothing. */
  lemma FillAgain(run: string, run': string, step: nat, history: seq<Message>, resp: Response, u: Usage)
    ensures var filled := Fill(run, step, history, resp).(usage := u); Fill(run', step, history, filled) == filled
  {
    hide Filled;
    FilledIdsAreSet(run, step, history, resp.toolCalls);
    FilledIdsAreSet(run', step, history, Filled(run, step, history, resp.toolCalls));
  }

  /** A reply as the mirrored world gives it. */
  function EchoReply(w: World, reply: Reply): Reply {
    if w.Replaying? then reply else WithoutUsage(reply)
  }

  lemma {:induction false} StrictCounts(l: seq<Event>)
    ensures |Strict(l)| == Answered(l)
  {
    if l != [] {
      StrictCounts(l[..|l| - 1]);
    }
  }

  lemma {:induction false} StrictPrefix(l: seq<Event>, r: seq<Event>)
    requires l <= r
    ensures Strict(l) <= Strict(r)
  {
    if |l| < |r| {
      StrictPrefix(l, r[..|r| - 1]);
    } else {
      assert l == r;
    }
  }

  /** The request of the next recorded completion is the one the resume client asks for. */
  lemma StrictNext(log: seq<Event>, r: seq<Event>, step: nat, req: Request, reply: Reply)
    requires !reply.Failed? && log + [Completion(step, req, reply, false)] <= r
    ensures Answered(log) < |Strict(r)| && Strict(r)[Answered(log)] == req
  {
    hide Scan;
    var l := log + [Completion(step, req, reply, false)];
    assert l[..|log|] == log;
    StrictCounts(log);
    StrictPrefix(l, r);
    assert Strict(l) == Strict(log) + [req];
    assert Strict(r)[Answered(log)] == Strict(l)[Answered(log)];
  }

  /** The mirrored world gives the recorded reply and stays in step. */
  lemma AskAligned(st: State, st': State, r: Recording, step: nat, req: Request, reply: Reply, next: State)
    requires Rel(st, st', r) && !reply.Failed?
    requires next.log == st.log + [Completion(step, req, reply, false)] && next.log <= r.events
    requires next.usage == st.usage.Add(Cost(reply)) && next.world.Live? && next.world.tools == st.world.tools
    requires Scan(st.log).pending == [] || Scan(st.log).pending == TrailingIds(req.messages, |Scan(st.log).pending|)
    ensures var (got, w) := Ask(st'.world, req);
            && got == EchoReply(st'.world, reply) && !w.Live? && (w.Replaying? <==> st'.world.Replaying?)
            && WorldOk(next, w, r)
  {
    hide Aligned, Steady, Undisturbed, TailIds, Scan, Serve, TrailingIds, Done, After, Usage.Add;
    var rc := RcOf(st'.world);
    AlignedIdx(rc, st.log, r.events);
    ServeAligned(rc, st.log, r.events, step, req, reply);
    ScanCompletion(st.log, step, req, reply);
    if st'.world.Resuming? {
      var rs := st'.world.rs;
      StrictNext(st.log, r.events, step, req, reply);
      StrictCounts(r.events);
      AddZero(st.usage);
      ServedInPrefix(rs, req, reply);
    }
  }

  lemma AlignedIdx(rc: Replay, log: seq<Event>, r: seq<Event>)
    requires Aligned(rc, log, r)
    ensures rc.idx == Answered(log) && |rc.responses| == Answered(r)
  {
    hide Scan, Groups, UsedIs;
  }

  lemma ServedInPrefix(rs: Resumed, req: Request, reply: Reply)
    requires !rs.diverged && rs.rc.idx < |rs.rc.responses| && rs.rc.idx < |rs.strict| && rs.strict[rs.rc.idx] == req
    requires Serve(rs.rc, req) == (reply, rs.rc.(idx := rs.rc.idx + 1)) && !reply.Failed?
    ensures ServePrefix(rs, req) == (WithoutUsage(reply),
              rs.(rc := rs.rc.(idx := rs.rc.idx + 1),
                  seed := if reply.Answer? then rs.seed.Add(reply.resp.usage) else rs.seed))
  {
    hide Serve, Usage.Add;
  }

  /** Recording a served reply keeps the states mirrored. */
  lemma EmitEcho(st: State, w0: World, w: World, run: string, step: nat, req: Request, reply: Reply)
    requires !w.Live? && !w0.Live? && (w.Replaying? <==> w0.Replaying?)
    ensures Emit(Echo(st, w0, run).(world := w), Completion(step, req, EchoReply(w, reply), false))
            == Echo(Emit(st, Completion(step, req, reply, false)), w, run)
  {
    hide Free, AllUnpaid;
    FreeSnoc(st.log, Completion(step, req, reply, false));
  }

  lemma FoldEcho(cfg: Config, st: State, w: World, run: string, resp: Response)
    requires !w.Live?
    ensures Fold(cfg, Echo(st, w, run), EchoReply(w, Answer(resp)).resp) == Echo(Fold(cfg, st, resp), w, run)
  {
    hide Free, AllUnpaid, Charged, Usage.Add;
    AddZero(ZERO_USAGE);
    NothingCharged(cfg);
  }

  lemma NothingCharged(cfg: Config)
    ensures Charged(cfg, 0, ZERO_USAGE) == 0
  {
  }

  lemma LiveIsLive(w: World)
    requires Undisturbed(w)
    ensures w.Live?
  {
  }

  lemma CompleteSim(cfg: Config, st: State, st': State, r: Recording, final: bool)
    requires Rel(st, st', r) && Replays(Complete(cfg, st, final)) && Covers(r, Complete(cfg, st, final).st)
    ensures Mirrors(Complete(cfg, st, final), Complete(cfg, st', final), r)
    ensures var c := Complete(cfg, st, final); Closed(c.st.log) && Scan(c.st.log).pending == []
  {
    hide Complete, Ask, Fill, Fold, Emit, Steady, Undisturbed, TailIds, Scan, WorldOk, Echo, After, Usage.Add;
    RelSame(st, st', r);
    RelArmed(st, st', r);
    var req := Request(Wire(st.messages, cfg.accepts), final);
    var step := st.iterations + 1;
    CompleteRecords(cfg, st, final);
    CompleteRecords(cfg, st', final);
    AskIsCalm(st.world, req);
    LiveIsLive(Ask(st.world, req).1);
    RequestPasses(st, cfg.accepts);
    var reply := Ask(st.world, req).0;
    var recorded := if reply.Answer? then Answer(Fill(st.run, step, req.messages, reply.resp)) else reply;
    var c := Complete(cfg, st, final);
    CompleteFields(cfg, st, step, req, recorded, c.st);
    AskAligned(st, st', r, step, req, recorded, c.st);
    ScanCompletion(st.log, step, req, recorded);
    CompleteSame(cfg, st, final);
    ArmedSame(r.start, st, c.st);
    var w' := Ask(st'.world, req).1;
    EmitEcho(st.(world := c.st.world), st'.world, w', st'.run, step, req, recorded);
    EchoWorld(st, st'.world, st'.run, c.st.world);
    EchoWorld(c.st, w', st'.run, c.st.world);
    if reply.Answer? {
      FoldEcho(cfg, Emit(st.(world := c.st.world), Completion(step, req, recorded, false)), w', st'.run, recorded.resp);
      FillAgain(st.run, st'.run, step, req.messages, reply.resp, recorded.resp.usage);
      FillAgain(st.run, st'.run, step, req.messages, reply.resp, ZERO_USAGE);
    }
  }

  lemma EchoWorld(st: State, w: World, run: string, live: World)
    requires !w.Live?
    ensures Echo(st.(world := live), w, run) == Echo(st, w, run)
    ensures Echo(st, w, run).world == w && Echo(st, w, run).run == run
  {
  }

  lemma CompleteFields(cfg: Config, st: State, step: nat, req: Request, reply: Reply, next: State)
    requires reply.Answer? ==>
             next == Fold(cfg, Emit(st.(world := next.world), Completion(step, req, reply, false)), reply.resp)
    requires !reply.Answer? ==> next == Emit(st.(world := next.world), Completion(step, req, reply, false))
    ensures next.log == st.log + [Completion(step, req, reply, false)] && next.usage == st.usage.Add(Cost(reply))
    ensures next.messages == st.messages
  {
    hide Charged;
    AddZero(st.usage);
  }

  // ----- Compaction -----

  /** The compactor's answer, as the mirrored world gives it. */
  predicate SameOut(w: World, out: CompactOut, out': CompactOut) {
    out' == out.(calls := if w.Replaying? then out.calls else Stripped(out.calls))
  }

  /** The states after the calls of a recorded pass. */
  predicate AfterPass(st: State, calls: seq<Reply>, next: State) {
    && next.log == st.log + PurposeEvents(st.iterations + 1, calls) && next.usage == st.usage.Add(Spend(calls))
    && next.world.Live? && st.world.Live? && next.world.tools == st.world.tools
  }

  /** A pass without model calls leaves the mirrored world alone. */
  lemma FreePassAligned(st: State, st': State, r: Recording, next: State)
    requires Rel(st, st', r) && AfterPass(st, [], next)
    ensures WorldOk(next, st'.world, r)
  {
    hide Aligned, Steady, Undisturbed, TailIds, Scan, Done, After, MarksOf, Usage.Add;
    assert st.log + PurposeEvents(st.iterations + 1, []) == st.log;
    AddZero(st.usage);
    NothingSpent();
  }

  /** A client about to serve the group of calls serves it. */
  predicate NextPass(rc: Replay, calls: seq<Reply>) {
    rc.nextSummary < |rc.summaries| && rc.summaries[rc.nextSummary] == calls && calls != [] &&
    calls[|calls| - 1].Answer?
  }

  lemma ReplayedPass(rc: Replay, orders: seq<seq<nat>>, calls: seq<Reply>, strip: string -> string,
                     partial: string -> string, entries: seq<string>)
    requires NextPass(rc, calls)
    ensures AskSummary(Replaying(rc, orders), strip, partial, entries) ==
            (Some(SummaryPass(SummaryText(strip(calls[|calls| - 1].resp.text)), calls, [])),
             Replaying(rc.(nextSummary := rc.nextSummary + 1), orders))
  {
  }

  lemma ResumedPass(rs: Resumed, live: World, orders: seq<seq<nat>>, calls: seq<Reply>, strip: string -> string,
                    partial: string -> string, entries: seq<string>)
    requires NextPass(rs.rc, calls) && !rs.diverged
    ensures AskSummary(Resuming(rs, live, orders), strip, partial, entries) ==
            (Some(SummaryPass(SummaryText(strip(calls[|calls| - 1].resp.text)), Stripped(calls), [])),
             Resuming(rs.(rc := rs.rc.(nextSummary := rs.rc.nextSummary + 1), seed := rs.seed.Add(Spend(calls))), live,
                      orders))
  {
    hide Spend, Usage.Add;
    assert Stripped(calls)[|calls| - 1] == WithoutUsage(calls[|calls| - 1]);
  }

  /** The next recorded pass is served as recorded. */
  lemma PassAligned(st: State, st': State, r: Recording, calls: seq<Reply>, next: State,
                    strip: string -> string, partial: string -> string, entries: seq<string>)
    requires Rel(st, st', r) && Closed(st.log) && calls != [] && calls[|calls| - 1].Answer?
    requires AfterPass(st, calls, next) && NextNotPurpose(next.log, r.events)
    ensures var (pass, w) := AskSummary(st'.world, strip, partial, entries);
            && pass.Some? && pass.value.calls == (if st'.world.Replaying? then calls else Stripped(calls))
            && pass.value.result == SummaryText(strip(calls[|calls| - 1].resp.text))
            && !w.Live? && (w.Replaying? <==> st'.world.Replaying?) && WorldOk(next, w, r)
  {
    hide Aligned, Steady, Undisturbed, TailIds, Scan, Done, After, Usage.Add, Spend, Closed, AskSummary, Echo,
         PendingOk, Armed, AllHarmless, Strict;
    var rc := RcOf(st'.world);
    SummaryAligned(rc, st.log, r.events, st.iterations + 1, calls);
    SummaryRecorded(st.log, r.events, st.iterations + 1, calls);
    if st'.world.Replaying? {
      ReplayedPass(rc, st'.world.orders, calls, strip, partial, entries);
    } else {
      ResumedPass(st'.world.rs, st'.world.live, st'.world.orders, calls, strip, partial, entries);
    }
  }

  lemma SummarizeSim(cfg: Config, st: State, st': State, r: Recording, from: nat, at: nat, next: State)
    requires Rel(st, st', r) && Closed(st.log) && from <= at <= |st.messages|
    requires var out := SummarizeAt(cfg, st.world, st.messages, from, at).0;
             out.ok && AfterPass(st, out.calls, next) && NextNotPurpose(next.log, r.events)
    ensures var out := SummarizeAt(cfg, st.world, st.messages, from, at).0;
            var (out', w') := SummarizeAt(cfg, st'.world, st.messages, from, at);
            && SameOut(st'.world, out, out') && !w'.Live? && (w'.Replaying? <==> st'.world.Replaying?)
            && WorldOk(next, w', r)
  {
    hide StubOut, Summarized, Rel, WorldOk, Closed, Summarize, AfterPass;
    RelSame(st, st', r);
    var entries := cfg.render(Wire(st.messages, cfg.accepts)[from..at]);
    LastCallIsTheSummary(cfg.strip, cfg.partial, st.world.summaryReplies, entries, 0);
    var pass := Summarize(cfg.strip, cfg.partial, st.world.summaryReplies, entries, 0);
    assert AskSummary(st.world, cfg.strip, cfg.partial, entries).0 == Some(pass);
    PassAligned(st, st', r, pass.calls, next, cfg.strip, cfg.partial, entries);
  }

  /** The compactor answers from the record what it answered live. */
  lemma CompactorSim(cfg: Config, st: State, st': State, r: Recording, next: State)
    requires Rel(st, st', r) && Closed(st.log)
    requires var out := RunCompactor(cfg, st.world, st.messages, st.triggers.stubOnly).0;
             out.ok && AfterPass(st, out.calls, next) && NextNotPurpose(next.log, r.events)
    ensures var out := RunCompactor(cfg, st.world, st.messages, st.triggers.stubOnly).0;
            var (out', w') := RunCompactor(cfg, st'.world, st.messages, st.triggers.stubOnly);
            && SameOut(st'.world, out, out') && !w'.Live? && (w'.Replaying? <==> st'.world.Replaying?)
            && WorldOk(next, w', r)
  {
    hide SummarizeAt, Rel, WorldOk, Closed, AfterPass;
    RelSame(st, st', r);
    NothingStripped();
    NotDiverged(st, st', r);
    var cut := SummaryCut(cfg.prompts, st.messages);
    if cfg.compactor.Summarizing? && !st.triggers.stubOnly && cut.Cut? {
      SummarizeSim(cfg, st, st', r, cut.from, cut.at, next);
    } else {
      FreePassAligned(st, st', r, next);
    }
  }

  lemma NotDiverged(st: State, st': State, r: Recording)
    requires Rel(st, st', r)
    ensures st'.world.Resuming? ==> !st'.world.rs.diverged
  {
    hide Aligned, Steady, Undisturbed, PendingOk, After, MarksOf, Echo, AllHarmless;
  }

  lemma NothingStripped()
    ensures Stripped([]) == []
  {
  }

  lemma FreePurposes(log: seq<Event>, step: nat, calls: seq<Reply>)
    ensures Free(log + PurposeEvents(step, calls)) == Free(log) + PurposeEvents(step, Stripped(calls))
  {
  }

  /** Recording and charging a pass keeps the states mirrored. */
  lemma CompactEcho(cfg: Config, st: State, live: World, w0: World, w: World, run: string, out: CompactOut,
                    out': CompactOut)
    requires !w.Live? && !w0.Live? && (w.Replaying? <==> w0.Replaying?) && SameOut(w0, out, out')
    ensures Charge(cfg, Echo(st, w0, run), out', w) == Echo(Charge(cfg, st, out, live), w, run)
  {
    hide Free, AllUnpaid, Charged, Usage.Add, Spend, PurposeEvents;
    FreePurposes(st.log, st.iterations + 1, out.calls);
    StrippedIsFree(out.calls);
    AddZero(ZERO_USAGE);
    NothingCharged(cfg);
  }

  /** What `Compact` does with the compactor's answer. */
  function Charge(cfg: Config, st: State, out: CompactOut, w: World): State {
    st.(world := w, log := st.log + PurposeEvents(st.iterations + 1, out.calls),
        usage := st.usage.Add(out.Usage()), charged := Charged(cfg, st.charged, out.Usage()))
  }

  lemma CompactSim(cfg: Config, st: State, st': State, r: Recording)
    requires Rel(st, st', r) && Closed(st.log)
    requires var (out, st1) := Compact(cfg, st); out.ok && NextNotPurpose(st1.log, r.events)
    ensures var (out, st1) := Compact(cfg, st);
            var (out', st1') := Compact(cfg, st');
            && SameOut(st'.world, out, out') && Rel(st1, st1', r) && st1.messages == st.messages
            && TailIds(out.messages) == TailIds(st.messages)
            && (st1'.world.Replaying? <==> st'.world.Replaying?)
  {
    hide RunCompactor, WorldOk, Steady, Undisturbed, Spend, Charged, TailIds, Closed, Echo, After, Usage.Add,
         PurposeEvents;
    RelSame(st, st', r);
    RelArmed(st, st', r);
    var (out, w) := RunCompactor(cfg, st.world, st.messages, st.triggers.stubOnly);
    var (out', w') := RunCompactor(cfg, st'.world, st.messages, st.triggers.stubOnly);
    CompactorIsCalm(cfg, st.world, st.messages, st.triggers.stubOnly);
    LiveIsLive(w);
    var st1 := Charge(cfg, st, out, w);
    CompactorSim(cfg, st, st', r, st1);
    CompactorKeepsTail(cfg, st.world, st.messages, st.triggers.stubOnly);
    PurposesGrow(st.log, out.calls, st.iterations + 1);
    ArmedSame(r.start, st, st1);
    CompactEcho(cfg, st, w, st'.world, w', st'.run, out, out');
    EchoWorld(st1, w', st'.run, w);
    hide Scan;
  }

  /** A pass as the mirrored run makes it. */
  function EchoPass(w: World, p: Pass): Pass {
    if w.Replaying? then p else Unpaid(p)
  }

  /** Recording an applied compaction keeps the states mirrored. */
  lemma CompactedSim(st: State, st': State, msgs: seq<Message>, r: Recording, step: nat, before: nat, after: nat,
                     overflow: bool)
    requires Rel(st, st', r) && TailIds(msgs) == TailIds(st.messages)
    requires st.log + [Compacted(step, before, after, overflow)] <= r.events
    ensures var ev := Compacted(step, before, after, overflow);
            var a, a' := Emit(st.(messages := msgs), ev), Emit(st'.(messages := msgs), ev);
            Rel(a, a', r) && Closed(a.log)
  {
    hide Steady, Undisturbed, TailIds, Scan, Closed, Done, After, Free, AllUnpaid, Aligned;
    CompactedAligned(RcOf(st'.world), st.log, r.events, step, before, after, overflow);
    FreeSnoc(st.log, Compacted(step, before, after, overflow));
    CompactedRuns(st.log, step, before, after, overflow);
  }

  lemma CompactedRuns(log: seq<Event>, step: nat, before: nat, after: nat, overflow: bool)
    ensures Runs(log + [Compacted(step, before, after, overflow)]) == Runs(log)
  {
    ScanSnoc(log, Compacted(step, before, after, overflow));
    hide Scan;
  }

  /** Forgetting the cost of a harmless pass does not show in the triggers. */
  lemma ForgottenPass(st: State, r: Recording, p: Pass)
    requires Armed(r.start, st) && AllHarmless(r.start, r.passes) && st.passes + [p] <= r.passes
    ensures Apply(st.triggers, Unpaid(p)) == Apply(st.triggers, p)
  {
    hide After, Apply;
    var i := |st.passes|;
    assert r.passes[..i] == (st.passes + [p])[..i] == st.passes && r.passes[i] == (st.passes + [p])[i] == p;
    var t := After(r.start, st.passes);
    assert Harmless(After(r.start, r.passes[..i]), r.passes[i]);
    HarmlessIsSame(t, p);
    StubOnlyDoesNotMatter(t, p, st.triggers.stubOnly);
    StubOnlyDoesNotMatter(t, Unpaid(p), st.triggers.stubOnly);
  }

  /** One more pass of both runs. */
  lemma PassSim(st: State, st': State, p: Pass, r: Recording)
    requires Rel(st, st', r) && st.passes + [p] <= r.passes
    ensures var p' := EchoPass(st'.world, p);
            Rel(st.(passes := st.passes + [p], triggers := Apply(st.triggers, p)),
                st'.(passes := st'.passes + [p'], triggers := Apply(st'.triggers, p')), r)
  {
    hide Aligned, Steady, Undisturbed, TailIds, Scan, Done, After, MarksOf, Apply, Free;
    var a := st.(passes := st.passes + [p], triggers := Apply(st.triggers, p));
    ArmedOn(r.start, st, a, p);
    if st'.world.Resuming? {
      ForgottenPass(st, r, p);
      assert AllUnpaid(st.passes + [p]) == AllUnpaid(st.passes) + [Unpaid(p)];
    }
  }

  lemma AppliedSim(cfg: Config, st: State, st': State, out: CompactOut, out': CompactOut, before: nat, r: Recording)
    requires Rel(st, st', r) && TailIds(out.messages) == TailIds(st.messages) && out'.messages == out.messages
    requires Applied(cfg, st, out, before).log <= r.events
    ensures Rel(Applied(cfg, st, out, before), Applied(cfg, st', out', before), r)
    ensures Applied(cfg, st', out', before).world == st'.world
  {
    hide Rel, TailIds, EstimateTokens;
    RelSame(st, st', r);
    var after := EstimateTokens(Wire(out.messages, cfg.accepts));
    if out.messages != st.messages && after < before {
      CompactedSim(st, st', out.messages, r, st.iterations + 1, before, after, false);
    }
  }

  /** The first event after a pass that changed something is that pass's own. */
  lemma PassThenEvent(cfg: Config, st1: State, out: CompactOut, before: nat, r: seq<Event>)
    requires var l := Applied(cfg, st1, out, before).log; l <= r && NextNotPurpose(l, r)
    ensures NextNotPurpose(st1.log, r)
  {
    hide EstimateTokens;
  }

  /** What `maybeCompact` leaves once the compactor has answered. */
  lemma BoundaryLeaves(cfg: Config, st: State)
    requires var t := st.triggers;
             (t.budget > 0 || t.proactive) && t.Due(EstimateTokens(Wire(st.messages, cfg.accepts)))
    ensures var (out, st1) := Compact(cfg, st);
            var before := EstimateTokens(Wire(st.messages, cfg.accepts));
            var st2 := Applied(cfg, st1, out, before);
            var after := EstimateTokens(Wire(st2.messages, cfg.accepts));
            var p := AtBoundary(before, after, out.Usage() != ZERO_USAGE);
            && after <= before
            && (!out.ok ==> MaybeCompact(cfg, st) == NotCompacted(st1))
            && (out.ok ==>
                  MaybeCompact(cfg, st) == Kept(st2.(passes := st2.passes + [p], triggers := Apply(st2.triggers, p))))
  {
    hide Compact, EstimateTokens, Wire, Spend, Triggers.Rearm;
    CompactSame(cfg, st);
  }

  lemma PaidAlike(w: World, out: CompactOut, out': CompactOut)
    requires !w.Live? && SameOut(w, out, out')
    ensures out'.Usage() == if w.Replaying? then out.Usage() else ZERO_USAGE
  {
    hide Spend;
    StrippedIsFree(out.calls);
  }

  lemma MaybeCompactSim(cfg: Config, st: State, st': State, r: Recording)
    requires Rel(st, st', r) && Closed(st.log) && MaybeCompact(cfg, st).Kept?
    requires NextNotPurpose(MaybeCompact(cfg, st).st.log, r.events) && MaybeCompact(cfg, st).st.passes <= r.passes
    ensures MaybeCompact(cfg, st').Kept? && Rel(MaybeCompact(cfg, st).st, MaybeCompact(cfg, st').st, r)
  {
    hide Compact, Rel, TailIds, EstimateTokens, Spend, Applied, Closed, Wire, Echo;
    RelSame(st, st', r);
    var t := st.triggers;
    var before := EstimateTokens(Wire(st.messages, cfg.accepts));
    if (t.budget > 0 || t.proactive) && t.Due(before) {
      hide MaybeCompact, SameOut, Apply;
      BoundaryLeaves(cfg, st);
      BoundaryLeaves(cfg, st');
      var (out, st1) := Compact(cfg, st);
      PassThenEvent(cfg, st1, out, before, r.events);
      CompactSim(cfg, st, st', r);
      var (out', st1') := Compact(cfg, st');
      SameOutMeans(st'.world, out, out');
      AppliedSim(cfg, st1, st1', out, out', before, r);
      PaidAlike(st'.world, out, out');
      var st2, st2' := Applied(cfg, st1, out, before), Applied(cfg, st1', out', before);
      RelSame(st2, st2', r);
      var after := EstimateTokens(Wire(st2.messages, cfg.accepts));
      PassSim(st2, st2', AtBoundary(before, after, out.Usage() != ZERO_USAGE), r);
    }
  }

  lemma SameOutMeans(w: World, out: CompactOut, out': CompactOut)
    requires SameOut(w, out, out')
    ensures out'.messages == out.messages && out'.ok == out.ok
  {
  }

  // ----- Recovery -----

  lemma RetryIs(cfg: Config, st: State, st1: State, out: CompactOut)
    requires SamePasses(st, st1) && st1.messages == st.messages && st1.iterations == st.iterations
    ensures var p := Recovery(EstimateTokens(Wire(st.messages, cfg.accepts)),
                              EstimateTokens(Wire(out.messages, cfg.accepts)),
                              out.Usage() != ZERO_USAGE);
            var ev := Compacted(st.iterations + 1, EstimateTokens(st.messages), EstimateTokens(out.messages), true);
            var a := Emit(st1.(messages := out.messages), ev);
            RetryState(cfg, st, st1, out) == a.(passes := a.passes + [p], triggers := Apply(a.triggers, p))
  {
    hide EstimateTokens, Wire, Spend, Triggers.Refusal;
  }

  lemma RetrySim(cfg: Config, st: State, st': State, r: Recording)
    requires Rel(st, st', r)
    requires var (out, st1) := Compact(cfg, st);
             var (out', st1') := Compact(cfg, st');
             && Rel(st1, st1', r) && SameOut(st'.world, out, out') && TailIds(out.messages) == TailIds(st1.messages)
             && (st1'.world.Replaying? <==> st'.world.Replaying?)
             && RetryState(cfg, st, st1, out).log <= r.events && RetryState(cfg, st, st1, out).passes <= r.passes
    ensures var (out, st1) := Compact(cfg, st);
            var (out', st1') := Compact(cfg, st');
            Rel(RetryState(cfg, st, st1, out), RetryState(cfg, st', st1', out'), r)
  {
    hide Rel, TailIds, EstimateTokens, Spend, Wire, Compact, Echo, RetryState, SameOut, Apply;
    RelSame(st, st', r);
    var (out, st1) := Compact(cfg, st);
    var (out', st1') := Compact(cfg, st');
    CompactLeaves(cfg, st);
    CompactLeaves(cfg, st');
    SameOutMeans(st'.world, out, out');
    PaidAlike(st'.world, out, out');
    RetryIs(cfg, st, st1, out);
    RetryIs(cfg, st', st1', out');
    var step, before, after := st.iterations + 1, EstimateTokens(st.messages), EstimateTokens(out.messages);
    CompactedSim(st1, st1', out.messages, r, step, before, after, true);
    var a, a' := Emit(st1.(messages := out.messages), Compacted(step, before, after, true)),
                 Emit(st1'.(messages := out.messages), Compacted(step, before, after, true));
    RelSame(a, a', r);
    PassSim(a, a', Recovery(EstimateTokens(Wire(st.messages, cfg.accepts)),
                            EstimateTokens(Wire(out.messages, cfg.accepts)),
                            out.Usage() != ZERO_USAGE), r);
  }

  lemma CompactLeaves(cfg: Config, st: State)
    ensures var st1 := Compact(cfg, st).1;
            SamePasses(st, st1) && st1.messages == st.messages && st1.iterations == st.iterations
  {
    hide RunCompactor, Spend, Charged;
  }

  /** The record holds what a completion left, and a failed one was followed by no purpose call. */
  predicate Left(c: Completed, r: Recording) {
    Replays(c) && Covers(r, c.st) && (c.Faulted? ==> NextNotPurpose(c.st.log, r.events))
  }

  lemma RecoverSim(cfg: Config, st: State, st': State, r: Recording, final: bool)
    requires Rel(st, st', r) && Closed(st.log) && Left(Recover(cfg, st, final), r)
    ensures Mirrors(Recover(cfg, st, final), Recover(cfg, st', final), r)
    ensures var c := Recover(cfg, st, final); c.Completed? ==> Closed(c.st.log) && Scan(c.st.log).pending == []
  {
    hide Compact, Rel, TailIds, RetryState, Complete, Closed, Scan, Covers, Echo, SameOut;
    RelSame(st, st', r);
    var (out, st1) := Compact(cfg, st);
    var retry := RetryState(cfg, st, st1, out);
    RecoverLog(cfg, st, r, final);
    CompactSim(cfg, st, st', r);
    var (out', st1') := Compact(cfg, st');
    SameOutMeans(st'.world, out, out');
    if out.messages != st.messages && Wire(out.messages, cfg.accepts) != Wire(st.messages, cfg.accepts) {
      CoversMeans(r, retry);
      RetrySim(cfg, st, st', r);
      CompleteSim(cfg, retry, RetryState(cfg, st', st1', out'), r, final);
    }
  }

  lemma CoversMeans(r: Recording, st: State)
    requires Covers(r, st)
    ensures st.log <= r.events && st.passes <= r.passes
  {
  }

  /** After the recovery pass comes its Compaction event, or the end of the run. */
  lemma RecoverLog(cfg: Config, st: State, r: Recording, final: bool)
    requires Left(Recover(cfg, st, final), r)
    ensures var (out, st1) := Compact(cfg, st);
            out.ok && NextNotPurpose(st1.log, r.events)
    ensures var (out, st1) := Compact(cfg, st);
            out.messages != st.messages && Wire(out.messages, cfg.accepts) != Wire(st.messages, cfg.accepts) ==>
              Covers(r, RetryState(cfg, st, st1, out))
  {
    hide Compact, Complete, EstimateTokens, Spend, Scan, Steady, Undisturbed, Covers;
    var (out, st1) := Compact(cfg, st);
    var retry := RetryState(cfg, st, st1, out);
    var c := Complete(cfg, retry, final);
    CompleteGrows(cfg, retry, final);
    if out.ok && out.messages != st.messages && Wire(out.messages, cfg.accepts) != Wire(st.messages, cfg.accepts) {
      CoversOn(retry, c.st, r);
      CoversMeans(r, retry);
    } else {
      CoversMeans(r, st1);
    }
  }

  lemma RecoveringSim(cfg: Config, st: State, st': State, r: Recording, final: bool)
    requires Rel(st, st', r) && Left(CompleteRecovering(cfg, st, final), r)
    ensures Mirrors(CompleteRecovering(cfg, st, final), CompleteRecovering(cfg, st', final), r)
    ensures var c := CompleteRecovering(cfg, st, final); c.Completed? ==>
            Closed(c.st.log) && Scan(c.st.log).pending == []
  {
    hide Rel, Recover, Complete, Closed, Scan, Covers, Steady, Undisturbed;
    var c := Complete(cfg, st, final);
    RecoverGrows(cfg, c.st, final);
    if c.Faulted? && c.fault == ContextTooLong && CompactionEnabled(cfg) {
      CoversOn(c.st, Recover(cfg, c.st, final).st, r);
    }
    CompleteSim(cfg, st, st', r, final);
    if c.Faulted? && c.fault == ContextTooLong && CompactionEnabled(cfg) {
      RecoverSim(cfg, c.st, Complete(cfg, st', final).st, r, final);
    }
  }

  // ----- One turn's completion -----

  /** Appending a turn when nothing is pending, or a user turn at any time. */
  lemma AppendSim(st: State, st': State, m: Message, text: string, r: Recording)
    requires Rel(st, st', r) && (m.role.User? || Scan(st.log).pending == [])
    ensures Rel(Append(st, m), Append(st', m), r)
    ensures Rel(Append(st, m).(finalText := text), Append(st', m).(finalText := text), r)
  {
    hide Rel, TailIds, Scan, After;
    RelArmed(st, st', r);
    RelSame(st, st', r);
    if m.role.User? {
      TailAppendUser(st.messages, m);
    }
    RelFields(st, st', Append(st, m), r);
    RelFields(st, st', Append(st, m).(finalText := text), r);
  }

  lemma ContinueSim(cfg: Config, st: State, st': State, head: Response, head': Response, r: Recording, final: bool)
    requires Rel(st, st', r) && SameAnswer(head, head') && Left(ContinueCapped(cfg, st, head, final), r)
    ensures Mirrors(ContinueCapped(cfg, st, head, final), ContinueCapped(cfg, st', head', final), r)
    ensures var c := ContinueCapped(cfg, st, head, final); c.Completed? ==>
            Closed(c.st.log) && Scan(c.st.log).pending == []
  {
    hide Rel, CompleteRecovering, Stitch, Closed, Scan, Covers;
    var m := TextMessage(User, cfg.prompts.continueText);
    AppendSim(st, st', m, "", r);
    var d := CompleteRecovering(cfg, Append(st, m), final);
    if d.Completed? {
      CoversSame(d.st, ContinueCapped(cfg, st, head, final).st, r);
    }
    RecoveringSim(cfg, Append(st, m), Append(st', m), r, final);
    var d' := CompleteRecovering(cfg, Append(st', m), final);
    if d.Completed? {
      AppendSim(d.st, d'.st, d.resp.Turn(), Stitch(head.text, d.resp.text), r);
    }
  }

  lemma CoversSame(a: State, b: State, r: Recording)
    requires a.log == b.log && a.passes == b.passes
    ensures Covers(r, a) <==> Covers(r, b)
  {
  }

  lemma CompleteOnceSim(cfg: Config, st: State, st': State, r: Recording, final: bool)
    requires Rel(st, st', r) && Left(CompleteOnce(cfg, st, final), r)
    ensures Mirrors(CompleteOnce(cfg, st, final), CompleteOnce(cfg, st', final), r)
    ensures var c := CompleteOnce(cfg, st, final); c.Completed? ==> Closed(c.st.log) && Scan(c.st.log).pending == []
  {
    hide Rel, CompleteRecovering, ContinueCapped, Closed, Scan, Covers;
    var c := CompleteRecovering(cfg, st, final);
    if c.Completed? {
      var st1 := Append(c.st, c.resp.Turn());
      ContinueGrows(cfg, st1, c.resp, final);
      CoversSame(c.st, st1, r);
      if c.resp.stop.MaxTokens? && c.resp.toolCalls == [] {
        CoversOn(st1, ContinueCapped(cfg, st1, c.resp, final).st, r);
      }
      RecoveringSim(cfg, st, st', r, final);
      var c' := CompleteRecovering(cfg, st', final);
      AppendSim(c.st, c'.st, c.resp.Turn(), "", r);
      if c.resp.stop.MaxTokens? && c.resp.toolCalls == [] {
        ContinueSim(cfg, st1, Append(c'.st, c.resp.Turn()), c.resp, c'.resp, r, final);
      }
    } else {
      RecoveringSim(cfg, st, st', r, final);
    }
  }

  lemma ContinueGrows(cfg: Config, st: State, head: Response, final: bool)
    ensures Covers(RecordingOf(ContinueCapped(cfg, st, head, final).st), st)
  {
    hide CompleteRecovering, Stitch, Scan, Steady, Undisturbed;
    RecoveringGrows(cfg, Append(st, TextMessage(User, cfg.prompts.continueText)), final);
  }
}
