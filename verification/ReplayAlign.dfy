/** A replaying or resuming run, aligned with the recorded run at every moment: its client has served exactly the
    completions, summaries and tool turns the record holds so far, and the run's state is the recorded run's, a
    resumed one's without the spend it was served. */
module ReplayAlign {

  import opened Decimal
  import opened Chat
  import opened Pairing
  import opened Compaction
  import opened Summaries
  import opened Triggers
  import opened Record
  import opened ReplayClient
  import opened ReplayScan
  import opened ResumeClient
  import opened Worlds
  import opened Loop
  import opened LoopLog
  import opened LoopPasses

  // ----- The results a request ends with -----

  /** Ids of the tool results after the last assistant turn. */
  function TailIds(msgs: seq<Message>): seq<string> {
    ResultIds(msgs[LastAssistant(msgs) + 1..])
  }

  lemma {:induction false} ResultIdsConcat(a: seq<Message>, b: seq<Message>)
    ensures ResultIds(a + b) == ResultIds(a) + ResultIds(b)
  {
    if b == [] {
      assert a + b == a;
      assert ResultIds(a) + [] == ResultIds(a);
    } else {
      var n := |b| - 1;
      assert (a + b)[..|a + b| - 1] == a + b[..n];
      ResultIdsConcat(a, b[..n]);
    }
  }

  /** A request whose tail is the pending ids passes the replay client's structure check. */
  lemma TailIsTrailing(msgs: seq<Message>)
    ensures TrailingIds(msgs, |TailIds(msgs)|) == TailIds(msgs)
  {
    hide ResultIds, LastAssistant;
    var k := LastAssistant(msgs) + 1;
    assert msgs == msgs[..k] + msgs[k..];
    ResultIdsConcat(msgs[..k], msgs[k..]);
    var a, b := ResultIds(msgs[..k]), ResultIds(msgs[k..]);
    assert (a + b)[|a + b| - |b|..] == b;
  }

  lemma {:induction false} LastAssistantIs(msgs: seq<Message>, i: int)
    requires -1 <= i < |msgs| && (i >= 0 ==> msgs[i].role.Assistant?)
    requires forall j :: i < j < |msgs| ==> !msgs[j].role.Assistant?
    ensures LastAssistant(msgs) == i
  {
    hide LastAssistant;
  }

  lemma {:induction false} ResultIdsSkeleton(a: seq<Message>, b: seq<Message>)
    requires SameSkeleton(a, b)
    ensures ResultIds(a) == ResultIds(b)
  {
    if a != [] {
      ResultIdsSkeleton(a[..|a| - 1], b[..|b| - 1]);
    }
  }

  lemma TailSkeleton(a: seq<Message>, b: seq<Message>)
    requires SameSkeleton(a, b)
    ensures TailIds(a) == TailIds(b)
  {
    hide LastAssistant, ResultIds;
    var i := LastAssistant(a);
    LastAssistantIs(b, i);
    ResultIdsSkeleton(a[i + 1..], b[i + 1..]);
  }

  lemma NoResultIds(m: Message)
    requires !m.role.ToolResult?
    ensures ResultIds([m]) == []
  {
    assert [m][..0] == [];
  }

  lemma UserIsNotLast(msgs: seq<Message>, m: Message)
    requires m.role.User?
    ensures LastAssistant(msgs + [m]) == LastAssistant(msgs)
  {
    hide LastAssistant;
    LastAssistantIs(msgs + [m], LastAssistant(msgs));
  }

  lemma TailAppendUser(msgs: seq<Message>, m: Message)
    requires m.role.User?
    ensures TailIds(msgs + [m]) == TailIds(msgs)
  {
    hide LastAssistant, ResultIds;
    var i := LastAssistant(msgs);
    var tail := msgs[i + 1..];
    UserIsNotLast(msgs, m);
    assert (msgs + [m])[i + 1..] == tail + [m];
    ResultIdsConcat(tail, [m]);
    NoResultIds(m);
    assert ResultIds(tail) + [] == ResultIds(tail);
  }

  /** Replacing anything before an assistant turn keeps the tail. */
  lemma TailOfSuffix(pre: seq<Message>, msgs: seq<Message>, at: nat)
    requires at < |msgs| && msgs[at].role.Assistant?
    ensures TailIds(pre + msgs[at..]) == TailIds(msgs)
  {
    hide LastAssistant, ResultIds;
    var i := LastAssistant(msgs);
    var out := pre + msgs[at..];
    assert i >= at;
    LastAssistantIs(out, |pre| + i - at);
    assert out[|pre| + i - at + 1..] == msgs[i + 1..];
  }

  lemma CompactorKeepsTail(cfg: Config, w: World, msgs: seq<Message>, stubOnly: bool)
    ensures TailIds(RunCompactor(cfg, w, msgs, stubOnly).0.messages) == TailIds(msgs)
  {
    hide StubHistory, Summarized, SummaryCut, AskSummary, TailIds, KeptBy, Paired;
    StubKeeps(msgs, cfg.accepts);
    TailSkeleton(msgs, StubHistory(msgs, cfg.accepts));
    var cut := SummaryCut(cfg.prompts, msgs);
    if cut.Cut? {
      var (pass, _) := AskSummary(w, cfg.strip, cfg.partial, cfg.render(Wire(msgs, cfg.accepts)[cut.from..cut.at]));
      if pass.Some? && pass.value.result.SummaryText? {
        SummaryKeepsTail(cfg.prompts, msgs, cfg.accepts, cut.from, cut.at, pass.value.result.text);
      }
    }
  }

  lemma SummaryKeepsTail(p: Prompts, msgs: seq<Message>, accepts: bool, from: nat, at: nat, text: string)
    requires from <= at < |msgs| && msgs[at].role.Assistant?
    ensures TailIds(Summarized(p, msgs, accepts, from, at, text)) == TailIds(msgs)
  {
    hide TailIds, EstimateTokens;
    TailOfSuffix(msgs[..from] + [SummaryMessage(p, text)], msgs, at);
  }

  /** The tool runs since the last completion are the results the history ends with. */
  predicate PendingOk(st: State) {
    Scan(st.log).pending == [] || Scan(st.log).pending == TailIds(st.messages)
  }

  // ----- Alignment -----

  ghost predicate UsedIs(rc: Replay, runs: seq<RunAt>) {
    && rc.gi <= |rc.groups|
    && (forall g: nat, i: nat :: g < |rc.groups| && i < |rc.groups[g].calls| ==>
          ((g, i) in rc.used <==> Done(runs, rc.groups[g].resp)))
    && (forall g: nat :: g < rc.gi ==> Done(runs, rc.groups[g].resp))
  }

  /** rc replays the record r and has served what log, a prefix of r, holds. */
  ghost predicate Aligned(rc: Replay, log: seq<Event>, r: seq<Event>) {
    && log <= r
    && rc.responses == Scan(r).responses && rc.idx == Answered(log)
    && rc.groups == Groups(Scan(r).offered, Runs(r), Runs(r))
    && rc.summaries == Flush(Scan(r)).summaries && rc.nextSummary == |Flush(Scan(log)).summaries|
    && !rc.diverged && !rc.unreproduced
    && UsedIs(rc, Runs(log))
  }

  // ----- The mirrored run -----

  function RcOf(w: World): Replay
    requires !w.Live?
  {
    if w.Replaying? then w.rc else w.rs.rc
  }

  /** A tool run as a resumed run records it: arguments equal to the model's own read as not rewritten. */
  function FreeRun(run: RunRecord): RunRecord {
    if run.dispatchedArgs == Some(run.call.args) then run.(dispatchedArgs := None) else run
  }

  /** An event as a resumed run records it: a completion without its usage. */
  function FreeEvent(ev: Event): Event {
    if ev.Completion? then ev.(reply := WithoutUsage(ev.reply))
    else if ev.ToolRun? then ev.(run := FreeRun(ev.run))
    else ev
  }

  function Free(log: seq<Event>): (r: seq<Event>)
    ensures |r| == |log| && forall i :: 0 <= i < |r| ==> r[i] == FreeEvent(log[i])
  {
    seq(|log|, i requires 0 <= i < |log| => FreeEvent(log[i]))
  }

  lemma FreeSnoc(log: seq<Event>, ev: Event)
    ensures Free(log + [ev]) == Free(log) + [FreeEvent(ev)]
  {
  }

  /** The mirrored state: a replay repeats the run, its spend included; a resumed run repeats it for free. */
  function Echo(st: State, w: World, run: string): State
    requires !w.Live?
  {
    if w.Replaying? then st.(world := w, run := run)
    else st.(world := w, run := run, log := Free(st.log), usage := ZERO_USAGE, charged := 0,
             passes := AllUnpaid(st.passes))
  }

  /** Every mark the resume client has made belongs to a turn that is over. */
  ghost predicate MarksOf(rs: Resumed, runs: seq<RunAt>) {
    && (forall g: nat, i: nat :: (g, i) in rs.authorized || (g, i) in rs.deniedUsed ==>
          g < |rs.rc.groups| && Done(runs, rs.rc.groups[g].resp))
    && (forall k :: 0 <= k < |rs.decisions| ==>
          rs.decisions[k].g < |rs.rc.groups| && Done(runs, rs.rc.groups[rs.decisions[k].g].resp))
  }

  /** A resuming world in step with the recorded run: the seed is the recorded usage. */
  ghost predicate ResumeOk(st: State, w: World, r: Recording)
    requires w.Resuming?
  {
    && !w.rs.diverged && !w.rs.liveActive && w.rs.seed == st.usage && w.rs.strict == Strict(r.events)
    && MarksOf(w.rs, Runs(st.log))
    && r.behind == Some(w.live) && Quiet(w.live) && w.live.Live? && st.world.Live? && w.live.tools == st.world.tools
    && AllHarmless(r.start, r.passes) && (r.inOrder ==> w.orders == [])
  }

  ghost predicate WorldOk(st: State, w: World, r: Recording) {
    !w.Live? && Aligned(RcOf(w), st.log, r.events) && (w.Resuming? ==> ResumeOk(st, w, r)) &&
      (w.Replaying? ==> r.behind.None?)
  }

  /** The state st' mirrors the recorded run's state st. */
  ghost predicate Rel(st: State, st': State, r: Recording) {
    && !st'.world.Live? && st' == Echo(st, st'.world, st'.run)
    && Undisturbed(st.world) && PendingOk(st) && Armed(r.start, st)
    && WorldOk(st, st'.world, r)
  }

  predicate NextNotPurpose(log: seq<Event>, r: seq<Event>) {
    log <= r && (|log| < |r| ==> !IsPurpose(r[|log|]))
  }

  predicate Closed(log: seq<Event>) {
    Scan(log).open == []
  }

  lemma ScanCompletion(log: seq<Event>, step: nat, req: Request, reply: Reply)
    requires !reply.Failed?
    ensures var l := log + [Completion(step, req, reply, false)];
            && Scan(l).responses == Scan(log).responses +
                 [ReplayStep(reply, Scan(log).pending, if Scan(log).compaction then Some(req.messages) else None)]
            && Scan(l).pending == [] && Scan(l).open == [] && Runs(l) == Runs(log)
            && Flush(Scan(l)).summaries == Flush(Scan(log)).summaries
  {
    ScanSnoc(log, Completion(step, req, reply, false));
    hide Scan;
  }

  /** The next recorded completion is served as recorded. */
  lemma ServeAligned(rc: Replay, log: seq<Event>, r: seq<Event>, step: nat, req: Request, reply: Reply)
    requires Aligned(rc, log, r) && !reply.Failed?
    requires log + [Completion(step, req, reply, false)] <= r
    requires Scan(log).pending == [] || Scan(log).pending == TrailingIds(req.messages, |Scan(log).pending|)
    ensures Serve(rc, req) == (reply, rc.(idx := rc.idx + 1))
    ensures Aligned(rc.(idx := rc.idx + 1), log + [Completion(step, req, reply, false)], r)
  {
    hide Scan, Flush, Groups, TrailingIds;
    var l := log + [Completion(step, req, reply, false)];
    ScanCompletion(log, step, req, reply);
    ScanPrefix(l, r);
    assert rc.responses[rc.idx] == Scan(l).responses[rc.idx];
  }

  lemma FlushOpen(s: Scanned, calls: seq<Reply>)
    requires s.open == [] && calls != [] && calls[|calls| - 1].Answer?
    ensures Flush(s.(open := s.open + calls)).summaries == Flush(s).summaries + [calls]
  {
    assert [] + calls == calls;
  }

  lemma FlushReads(l: seq<Event>, r: seq<Event>)
    requires NextNotPurpose(l, r)
    ensures Flush(Scan(l)).summaries <= Flush(Scan(r)).summaries
  {
    hide Scan;
    ScanPrefix(l, r);
    if |l| == |r| {
      assert l == r;
    }
  }

  lemma SummaryRecorded(log: seq<Event>, r: seq<Event>, step: nat, calls: seq<Reply>)
    requires Closed(log) && calls != [] && calls[|calls| - 1].Answer?
    requires NextNotPurpose(log + PurposeEvents(step, calls), r)
    ensures var l := log + PurposeEvents(step, calls);
            && Flush(Scan(l)).summaries == Flush(Scan(log)).summaries + [calls]
            && Flush(Scan(l)).summaries <= Flush(Scan(r)).summaries
            && Scan(l).responses == Scan(log).responses && Runs(l) == Runs(log) && Scan(l).pending == Scan(log).pending
  {
    hide Scan, Flush;
    PurposesGrow(log, calls, step);
    FlushOpen(Scan(log), calls);
    FlushReads(log + PurposeEvents(step, calls), r);
  }

  /** The next recorded summary is the one the run is about to record. */
  lemma SummaryAligned(rc: Replay, log: seq<Event>, r: seq<Event>, step: nat, calls: seq<Reply>)
    requires Aligned(rc, log, r) && Closed(log)
    requires calls != [] && calls[|calls| - 1].Answer?
    requires NextNotPurpose(log + PurposeEvents(step, calls), r)
    ensures rc.nextSummary < |rc.summaries| && rc.summaries[rc.nextSummary] == calls
    ensures Aligned(rc.(nextSummary := rc.nextSummary + 1), log + PurposeEvents(step, calls), r)
  {
    hide Scan, Groups, Flush, Done;
    SummaryRecorded(log, r, step, calls);
  }

  /** A recorded compaction changes nothing the client serves. */
  lemma CompactedAligned(rc: Replay, log: seq<Event>, r: seq<Event>, step: nat, before: nat, after: nat, overflow: bool)
    requires Aligned(rc, log, r) && log + [Compacted(step, before, after, overflow)] <= r
    ensures Aligned(rc, log + [Compacted(step, before, after, overflow)], r)
    ensures var l := log + [Compacted(step, before, after, overflow)]; Closed(l) && Scan(l).pending == Scan(log).pending
  {
    ScanSnoc(log, Compacted(step, before, after, overflow));
    hide Scan, Groups;
  }
}
