/** Where a run's usage comes from (agent/runner.go:528-553, 775-831; agent/resume.go:196-300): Outcome.Usage and the
    shared pool get exactly the live replies the run has used up, in every run; what a resumed run is served from its
    record is counted in the budget seed alone. */
module LiveSpend {

  import opened Decimal
  import opened Chat
  import opened Summaries
  import opened Triggers
  import opened CallIds
  import opened Record
  import opened ReplayClient
  import opened ResumeClient
  import opened Worlds
  import opened Loop

  // ----- Stocks -----

  /** The live world at the bottom. */
  function LiveOf(w: World): World {
    if w.Resuming? then LiveOf(w.live) else w
  }

  function StepReplies(steps: seq<ReplayStep>): (r: seq<Reply>)
    ensures |r| == |steps| && forall i :: 0 <= i < |r| ==> r[i] == steps[i].reply
  {
    seq(|steps|, i requires 0 <= i < |steps| => steps[i].reply)
  }

  function Flat(groups: seq<seq<Reply>>): seq<Reply> {
    if groups == [] then [] else Flat(groups[..|groups| - 1]) + groups[|groups| - 1]
  }

  /** What the record has served: its completions and its summaries so far. */
  function Served(rc: Replay): Usage
    requires rc.idx <= |rc.responses| && rc.nextSummary <= |rc.summaries|
  {
    Spend(StepReplies(rc.responses[..rc.idx])).Add(Spend(Flat(rc.summaries[..rc.nextSummary])))
  }

  /** The seed is what the record has served. */
  predicate Seeded(w: World) {
    w.Resuming? ==>
      && w.rs.rc.idx <= |w.rs.rc.responses| && w.rs.rc.nextSummary <= |w.rs.rc.summaries|
      && w.rs.seed == Served(w.rs.rc)
  }

  predicate SameReplies(w: World, w': World) {
    LiveOf(w).Live? ==>
      LiveOf(w').Live? && LiveOf(w').replies == LiveOf(w).replies &&
        LiveOf(w').summaryReplies == LiveOf(w).summaryReplies
  }

  predicate SameServed(w: World, w': World) {
    && (w'.Resuming? <==> w.Resuming?)
    && (w.Resuming? ==> w'.rs.seed == w.rs.seed && w'.rs.rc == w.rs.rc.(used := w'.rs.rc.used))
  }

  /** No reply was used up, live or recorded. */
  predicate SameStock(w: World, w': World) {
    SameReplies(w, w') && SameServed(w, w')
  }

  // ----- What uses up no reply -----

  lemma {:induction false} CancelledStock(w: World)
    ensures SameStock(w, Cancelled(w).1)
  {
    if w.Resuming? {
      CancelledStock(w.live);
    }
  }

  lemma {:induction false} PoolStock(w: World)
    ensures SameStock(w, PoolExhausted(w).1)
  {
    if w.Resuming? {
      PoolStock(w.live);
    }
  }

  lemma {:induction false} DrainStock(w: World)
    ensures SameStock(w, Drain(w).1)
  {
    if w.Resuming? {
      DrainStock(w.live);
    }
  }

  lemma OwnPolicyStock(w: World, call: ToolCall)
    ensures SameStock(w, OwnPolicy(w, call).1)
  {
  }

  lemma RulingKeeps(rs: Resumed, call: ToolCall)
    ensures var rs' := RecordedDecision(rs, call).1; rs'.rc == rs.rc && rs'.seed == rs.seed
  {
    hide CurrentGroup, FirstSame;
  }

  lemma AuthorizeStock(w: World, call: ToolCall)
    ensures SameStock(w, Authorize(w, call).1)
  {
    hide Cancelled, RecordedDecision, OwnPolicy, ReplayPolicy;
    CancelledStock(w);
    var w1 := Cancelled(w).1;
    OwnPolicyStock(w1, call);
    if w1.Resuming? {
      RulingKeeps(w1.rs, call);
      OwnPolicyStock(w1.live, call);
    }
  }

  lemma {:induction false} AuthorizeCallsStock(w: World, calls: seq<ToolCall>)
    ensures SameStock(w, AuthorizeCalls(w, calls).1)
  {
    hide Authorize, Registered, SameStock;
    StockSelf(w);
    if calls != [] {
      var w1 := AuthorizeCalls(w, calls[..|calls| - 1]).1;
      AuthorizeCallsStock(w, calls[..|calls| - 1]);
      AuthorizeStock(w1, calls[|calls| - 1]);
      StockOn(w, w1, Authorize(w1, calls[|calls| - 1]).1);
    }
  }

  lemma StockSelf(w: World)
    ensures SameStock(w, w)
  {
  }

  lemma StockOn(a: World, b: World, c: World)
    requires SameStock(a, b) && SameStock(b, c)
    ensures SameStock(a, c)
  {
  }

  lemma {:induction false} RunCallStock(w: World, call: ToolCall, d: Decision, accepts: bool, max: int)
    requires d.Go? && call.id != ""
    ensures SameStock(w, RunCall(w, call, d, accepts, max).1)
    decreases w
  {
    hide RunRes, ServedRes, ServeCall, LookupCall;
    if w.Resuming? {
      RunCallStock(w.live, call, d, accepts, max);
      LookupCallKeeps(w.rs, call.id, call.name, d.args);
    }
  }

  lemma {:induction false} SequentialStock(w: World, calls: seq<ToolCall>, ds: seq<Decision>, accepts: bool, max: int,
                                           n: nat)
    requires n <= |calls| == |ds| && forall c | c in calls :: c.id != ""
    ensures SameStock(w, Sequential(w, calls, ds, accepts, max, n).2)
  {
    hide RunCall, Cancelled, SameStock;
    StockSelf(w);
    if n > 0 {
      SequentialStock(w, calls, ds, accepts, max, n - 1);
      var w1 := Sequential(w, calls, ds, accepts, max, n - 1).2;
      var w2 := Cancelled(w1).1;
      CancelledStock(w1);
      StockOn(w, w1, w2);
      if ds[n - 1].Go? {
        RunCallStock(w2, calls[n - 1], ds[n - 1], accepts, max);
        StockOn(w, w2, RunCall(w2, calls[n - 1], ds[n - 1], accepts, max).1);
      }
    }
  }

  lemma {:induction false} ParallelStock(w: World, calls: seq<ToolCall>, ds: seq<Decision>, accepts: bool, max: int,
                                         order: seq<nat>)
    requires |calls| == |ds| && (forall c | c in calls :: c.id != "") &&
             (forall k :: 0 <= k < |order| ==> order[k] < |calls|)
    ensures SameStock(w, Parallel(w, calls, ds, accepts, max, order).1)
  {
    hide RunCall, SameStock;
    StockSelf(w);
    if order != [] {
      var init, i := order[..|order| - 1], order[|order| - 1];
      ParallelStock(w, calls, ds, accepts, max, init);
      var w1 := Parallel(w, calls, ds, accepts, max, init).1;
      if ds[i].Go? {
        RunCallStock(w1, calls[i], ds[i], accepts, max);
        StockOn(w, w1, RunCall(w1, calls[i], ds[i], accepts, max).1);
      }
    }
  }

  lemma OrderStock(w: World, n: nat)
    ensures SameStock(w, NextOrder(w, n).1)
  {
  }

  /** A tool turn uses up no reply. */
  lemma ExecuteStock(w: World, calls: seq<ToolCall>, parallel: bool, accepts: bool, max: int)
    requires forall c | c in calls :: c.id != ""
    ensures SameStock(w, ExecuteTools(w, calls, parallel, accepts, max).1)
  {
    hide AuthorizeCalls, Sequential, Parallel, SameStock, NextOrder;
    AuthorizeCallsStock(w, calls);
    var (ds, w1) := AuthorizeCalls(w, calls);
    var (order, w2) := NextOrder(w1, |calls|);
    OrderStock(w1, |calls|);
    StockOn(w, w1, w2);
    SequentialStock(w1, calls, ds, accepts, max, |calls|);
    StockOn(w, w1, Sequential(w1, calls, ds, accepts, max, |calls|).2);
    ParallelStock(w2, calls, ds, accepts, max, order);
    StockOn(w, w2, Parallel(w2, calls, ds, accepts, max, order).1);
  }

  // ----- What uses up replies -----

  /** The next live reply was used up, or none was and the reply is free. */
  predicate OneTaken(w: World, reply: Reply, w': World) {
    LiveOf(w).Live? ==>
      && LiveOf(w').Live? && LiveOf(w').summaryReplies == LiveOf(w).summaryReplies
      && var before, after := LiveOf(w).replies, LiveOf(w').replies;
         || (after == before && Cost(reply) == ZERO_USAGE)
         || (before != [] && reply == before[0] && after == before[1..])
  }

  lemma {:induction false} AskTakes(w: World, req: Request)
    ensures OneTaken(w, Ask(w, req).0, Ask(w, req).1)
    ensures Seeded(w) ==> Seeded(Ask(w, req).1)
    decreases w
  {
    hide Serve, Served;
    if w.Resuming? {
      AskTakes(w.live, req);
      if !w.rs.diverged && InPrefix(w.rs) {
        PrefixSeeds(w.rs, req);
      }
    }
  }

  lemma PrefixSeeds(rs: Resumed, req: Request)
    requires !rs.diverged && InPrefix(rs)
    ensures var (reply, rs') := ServePrefix(rs, req);
            && Cost(reply) == ZERO_USAGE
            && (rs.rc.nextSummary <= |rs.rc.summaries| && rs.seed == Served(rs.rc) ==>
                  && rs'.rc.idx <= |rs'.rc.responses| && rs'.rc.nextSummary <= |rs'.rc.summaries|
                  && rs'.seed == Served(rs'.rc))
  {
    hide TrailingIds, Usage.Add, Spend, Flat;
    var rc := rs.rc;
    var one := rc.(idx := rc.idx + 1);
    assert StepReplies(rc.responses[..rc.idx + 1]) ==
           StepReplies(rc.responses[..rc.idx]) + [rc.responses[rc.idx].reply];
    SpendSnoc(StepReplies(rc.responses[..rc.idx]), rc.responses[rc.idx].reply);
    var a := Spend(StepReplies(rc.responses[..rc.idx]));
    if rc.nextSummary <= |rc.summaries| {
      var b := Spend(Flat(rc.summaries[..rc.nextSummary]));
      AddIsAssociative(a, b, Cost(rc.responses[rc.idx].reply));
      AddZero(a);
    }
  }

  /** The slice of live summary replies a pass used up; its calls cost what the slice costs. */
  predicate PassTaken(w: World, calls: seq<Reply>, slice: seq<Reply>, w': World) {
    LiveOf(w).Live? ==>
      && LiveOf(w').Live? && LiveOf(w').replies == LiveOf(w).replies
      && LiveOf(w).summaryReplies == slice + LiveOf(w').summaryReplies && Spend(calls) == Spend(slice)
  }

  lemma {:induction false} SummarizeTakes(strip: string -> string, partial: string -> string, replies: seq<Reply>,
                                          entries: seq<string>, depth: nat) returns (slice: seq<Reply>)
    ensures var pass := Summarize(strip, partial, replies, entries, depth);
            replies == slice + pass.rest && Spend(pass.calls) == Spend(slice)
    decreases SUMMARY_MAX_DEPTH - depth
  {
    hide SplitPoint, SummaryCall, Spend, Usage.Add;
    var first := SummaryCall(strip, replies);
    slice := SummaryCallTakes(strip, replies);
    if first.result.TooLong? && depth < SUMMARY_MAX_DEPTH && |entries| >= 2 {
      var mid := SplitPoint(entries);
      var left := Summarize(strip, partial, first.rest, entries[..mid], depth + 1);
      var l := SummarizeTakes(strip, partial, first.rest, entries[..mid], depth + 1);
      SpendConcat(first.calls, left.calls);
      SpendConcat(slice, l);
      slice := slice + l;
      if left.result.SummaryText? {
        var right := Summarize(strip, partial, left.rest, entries[mid..], depth + 1);
        var r := SummarizeTakes(strip, partial, left.rest, entries[mid..], depth + 1);
        SpendConcat(first.calls + left.calls, right.calls);
        SpendConcat(slice, r);
        slice := slice + r;
        if right.result.SummaryText? {
          var both := [partial(left.result.text), partial(right.result.text)];
          var whole := Summarize(strip, partial, right.rest, both, depth + 1);
          var x := SummarizeTakes(strip, partial, right.rest, both, depth + 1);
          SpendConcat(first.calls + left.calls + right.calls, whole.calls);
          SpendConcat(slice, x);
          slice := slice + x;
        }
      }
    }
  }

  lemma SummaryCallTakes(strip: string -> string, replies: seq<Reply>) returns (slice: seq<Reply>)
    ensures var pass := SummaryCall(strip, replies); replies == slice + pass.rest && Spend(pass.calls) == Spend(slice)
  {
    if replies == [] {
      slice := [];
      assert [Failed("")][..0] == [];
    } else {
      slice := [replies[0]];
    }
  }

  function CallsOf(pass: Option<SummaryPass>): seq<Reply> {
    if pass.Some? then pass.value.calls else []
  }

  lemma {:induction false} AskSummaryTakes(w: World, strip: string -> string, partial: string -> string,
                                           entries: seq<string>)
      returns (slice: seq<Reply>)
    ensures var (pass, w') := AskSummary(w, strip, partial, entries);
            PassTaken(w, CallsOf(pass), slice, w') && (Seeded(w) ==> Seeded(w'))
    decreases w
  {
    hide Summarize, Spend, Served;
    slice := [];
    NothingSpent();
    if w.Live? {
      slice := SummarizeTakes(strip, partial, w.summaryReplies, entries, 0);
    } else if w.Resuming? && !w.rs.diverged {
      if OwnsPass(w.rs) {
        PassSeeds(w.rs);
      } else {
        slice := AskSummaryTakes(w.live, strip, partial, entries);
      }
    }
  }

  lemma PassSeeds(rs: Resumed)
    requires !rs.diverged && OwnsPass(rs)
    ensures var (calls, rs') := ServePass(rs);
            && (calls.Some? ==> Spend(calls.value) == ZERO_USAGE)
            && (rs.rc.idx <= |rs.rc.responses| && rs.rc.nextSummary <= |rs.rc.summaries| && rs.seed == Served(rs.rc) ==>
                  && rs'.rc.idx <= |rs'.rc.responses| && rs'.rc.nextSummary <= |rs'.rc.summaries|
                  && rs'.seed == Served(rs'.rc))
  {
    hide Usage.Add, Spend;
    var rc := rs.rc;
    if rc.nextSummary < |rc.summaries| {
      var before, next := rc.summaries[..rc.nextSummary], rc.summaries[rc.nextSummary];
      StrippedIsFree(next);
      assert rc.summaries[..rc.nextSummary + 1][..rc.nextSummary] == before;
      assert Flat(rc.summaries[..rc.nextSummary + 1]) == Flat(before) + next;
      SpendConcat(Flat(before), next);
      if rc.idx <= |rc.responses| {
        AddIsAssociative(Spend(StepReplies(rc.responses[..rc.idx])), Spend(Flat(before)), Spend(next));
      }
    }
  }

  lemma CompactorTakes(cfg: Config, w: World, msgs: seq<Message>, stubOnly: bool) returns (slice: seq<Reply>)
    ensures var (out, w') := RunCompactor(cfg, w, msgs, stubOnly);
            PassTaken(w, out.calls, slice, w') && (Seeded(w) ==> Seeded(w'))
  {
    hide SummaryCut, AskSummary, Summarized, Served, Spend;
    slice := [];
    NothingSpent();
    var cut := SummaryCut(cfg.prompts, msgs);
    if cfg.compactor.Summarizing? && !stubOnly && cut.Cut? && !(w.Resuming? && w.rs.diverged) {
      slice := AskSummaryTakes(w, cfg.strip, cfg.partial, cfg.render(Wire(msgs, cfg.accepts)[cut.from..cut.at]));
    }
  }

  // ----- The account of a run -----

  function Fee(cfg: Config, u: Usage): int {
    Charged(cfg, 0, u)
  }

  /** What the pool gets for the replies served to the turns, one charge each. */
  function Fees(cfg: Config, replies: seq<Reply>): int {
    if replies == [] then 0 else Fees(cfg, replies[..|replies| - 1]) + Fee(cfg, Cost(replies[|replies| - 1]))
  }

  /** What the pool gets for compaction passes, one charge each. */
  function PassFees(cfg: Config, slices: seq<seq<Reply>>): int {
    if slices == [] then 0 else PassFees(cfg, slices[..|slices| - 1]) + Fee(cfg, Spend(slices[|slices| - 1]))
  }

  /** Since `live`, st has used up m replies, and the slices for its passes, and its usage and charge are theirs. */
  predicate Took(cfg: Config, live: World, st: State, m: nat, slices: seq<seq<Reply>>) {
    && live.Live? && LiveOf(st.world).Live? && m <= |live.replies|
    && live.replies[m..] == LiveOf(st.world).replies
    && live.summaryReplies == Flat(slices) + LiveOf(st.world).summaryReplies
    && st.usage == Spend(live.replies[..m]).Add(Spend(Flat(slices)))
    && st.charged == Fees(cfg, live.replies[..m]) + PassFees(cfg, slices)
  }

  ghost predicate Accounted(cfg: Config, live: World, st: State) {
    Seeded(st.world) && exists m: nat, slices: seq<seq<Reply>> :: Took(cfg, live, st, m, slices)
  }

  /** Steps that neither pay nor use up a reply. */
  lemma AccountSame(cfg: Config, live: World, a: State, b: State)
    requires Accounted(cfg, live, a) && a.usage == b.usage && a.charged == b.charged && SameStock(a.world, b.world)
    ensures Accounted(cfg, live, b)
  {
    hide Fees, PassFees, Spend, Flat;
    var m: nat, slices :| Took(cfg, live, a, m, slices);
    assert Took(cfg, live, b, m, slices);
  }

  lemma CompleteAccounts(cfg: Config, live: World, st: State, final: bool)
    requires Accounted(cfg, live, st)
    ensures Accounted(cfg, live, Complete(cfg, st, final).st)
  {
    hide Ask, Complete, Fees, PassFees, Spend, Flat, Usage.Add, Served;
    var req := Request(Wire(st.messages, cfg.accepts), final);
    AskTakes(st.world, req);
    var (reply, w) := Ask(st.world, req);
    var next := Complete(cfg, st, final).st;
    var m: nat, slices :| Took(cfg, live, st, m, slices);
    CompletePays(cfg, st, final);
    AddZero(st.usage);
    NothingFees(cfg);
    if LiveOf(w).replies == LiveOf(st.world).replies && Cost(reply) == ZERO_USAGE {
      assert Took(cfg, live, next, m, slices);
    } else {
      TookReply(cfg, live, st, next, m, slices, reply);
    }
  }

  lemma CompletePays(cfg: Config, st: State, final: bool)
    ensures var (reply, w) := Ask(st.world, Request(Wire(st.messages, cfg.accepts), final));
            var next := Complete(cfg, st, final).st;
            next.world == w && next.usage == st.usage.Add(Cost(reply)) &&
              next.charged == st.charged + Fee(cfg, Cost(reply))
  {
    hide Ask, Wire, Filled, Usage.Add;
    AddZero(st.usage);
    NothingFees(cfg);
  }

  lemma NothingFees(cfg: Config)
    ensures Fee(cfg, ZERO_USAGE) == 0
  {
  }

  lemma TookReply(cfg: Config, live: World, st: State, next: State, m: nat, slices: seq<seq<Reply>>, reply: Reply)
    requires Took(cfg, live, st, m, slices) && LiveOf(next.world).Live?
    requires LiveOf(st.world).replies != [] && reply == LiveOf(st.world).replies[0]
    requires LiveOf(next.world).replies == LiveOf(st.world).replies[1..]
    requires LiveOf(next.world).summaryReplies == LiveOf(st.world).summaryReplies
    requires next.usage == st.usage.Add(Cost(reply)) && next.charged == st.charged + Fee(cfg, Cost(reply))
    ensures Took(cfg, live, next, m + 1, slices)
  {
    hide Spend, Flat, PassFees, Usage.Add, Fee, Cost;
    assert live.replies[m] == live.replies[m..][0] == reply;
    assert live.replies[..m + 1] == live.replies[..m] + [reply];
    assert live.replies[..m + 1][..m] == live.replies[..m];
    SpendSnoc(live.replies[..m], reply);
    AddIsAssociative(Spend(live.replies[..m]), Spend(Flat(slices)), Cost(reply));
  }

  lemma CompactAccounts(cfg: Config, live: World, st: State)
    requires Accounted(cfg, live, st)
    ensures Accounted(cfg, live, Compact(cfg, st).1)
  {
    hide RunCompactor, Fees, PassFees, Spend, Flat, Usage.Add, Served;
    var slice := CompactorTakes(cfg, st.world, st.messages, st.triggers.stubOnly);
    var (out, next) := Compact(cfg, st);
    var m: nat, slices :| Took(cfg, live, st, m, slices);
    assert next.usage == st.usage.Add(Spend(slice)) && next.charged == st.charged + Fee(cfg, Spend(slice));
    TookSlice(cfg, live, st, next, m, slices, slice);
  }

  lemma TookSlice(cfg: Config, live: World, st: State, next: State, m: nat, slices: seq<seq<Reply>>, slice: seq<Reply>)
    requires Took(cfg, live, st, m, slices) && LiveOf(next.world).Live?
    requires LiveOf(next.world).replies == LiveOf(st.world).replies
    requires LiveOf(st.world).summaryReplies == slice + LiveOf(next.world).summaryReplies
    requires next.usage == st.usage.Add(Spend(slice)) && next.charged == st.charged + Fee(cfg, Spend(slice))
    ensures Took(cfg, live, next, m, slices + [slice])
  {
    hide Spend, Fees, Usage.Add, Fee, Cost;
    assert (slices + [slice])[..|slices|] == slices;
    assert Flat(slices + [slice]) == Flat(slices) + slice;
    SpendConcat(Flat(slices), slice);
    AddIsAssociative(Spend(live.replies[..m]), Spend(Flat(slices)), Spend(slice));
  }

  // ----- Over the loop -----

  lemma FieldsAccount(cfg: Config, live: World, a: State, b: State)
    requires Accounted(cfg, live, a) && a.usage == b.usage && a.charged == b.charged && a.world == b.world
    ensures Accounted(cfg, live, b)
  {
    hide Accounted;
    StockSelf(a.world);
    AccountSame(cfg, live, a, b);
  }

  lemma MaybeCompactAccounts(cfg: Config, live: World, st: State)
    requires Accounted(cfg, live, st)
    ensures Accounted(cfg, live, MaybeCompact(cfg, st).st)
  {
    hide Compact, Accounted, EstimateTokens, Wire, Spend, Triggers.Rearm;
    CompactAccounts(cfg, live, st);
    if MaybeCompactPays(cfg, st) {
      FieldsAccount(cfg, live, Compact(cfg, st).1, MaybeCompact(cfg, st).st);
    }
  }

  predicate MaybeCompactPays(cfg: Config, st: State) {
    var t := st.triggers; (t.budget > 0 || t.proactive) && t.Due(EstimateTokens(Wire(st.messages, cfg.accepts)))
  }

  lemma RecoverAccounts(cfg: Config, live: World, st: State, final: bool)
    requires Accounted(cfg, live, st)
    ensures Accounted(cfg, live, Recover(cfg, st, final).st)
  {
    hide Compact, Complete, Accounted, EstimateTokens, Wire, Spend, Triggers.Refusal;
    CompactAccounts(cfg, live, st);
    var (out, st1) := Compact(cfg, st);
    var next := RetryState(cfg, st, st1, out);
    FieldsAccount(cfg, live, st1, next);
    CompleteAccounts(cfg, live, next, final);
  }

  lemma RecoveringAccounts(cfg: Config, live: World, st: State, final: bool)
    requires Accounted(cfg, live, st)
    ensures Accounted(cfg, live, CompleteRecovering(cfg, st, final).st)
  {
    hide Complete, Recover, Accounted;
    CompleteAccounts(cfg, live, st, final);
    RecoverAccounts(cfg, live, Complete(cfg, st, final).st, final);
  }

  lemma CompleteOnceAccounts(cfg: Config, live: World, st: State, final: bool)
    requires Accounted(cfg, live, st)
    ensures Accounted(cfg, live, CompleteOnce(cfg, st, final).st)
  {
    hide CompleteRecovering, Stitch, Accounted;
    RecoveringAccounts(cfg, live, st, final);
    var c := CompleteRecovering(cfg, st, final);
    if c.Completed? {
      var st1 := Append(c.st, c.resp.Turn());
      FieldsAccount(cfg, live, c.st, st1);
      var st2 := Append(st1, TextMessage(User, cfg.prompts.continueText));
      FieldsAccount(cfg, live, st1, st2);
      RecoveringAccounts(cfg, live, st2, final);
      var d := CompleteRecovering(cfg, st2, final);
      if d.Completed? {
        FieldsAccount(cfg, live, d.st, Append(d.st, d.resp.Turn()).(finalText := Stitched(c.resp, d.resp).text));
      }
    }
  }

  lemma StopAccounts(cfg: Config, live: World, st: State, reason: Truncation)
    requires Accounted(cfg, live, st)
    ensures Accounted(cfg, live, Stop(cfg, st, reason).st)
  {
    hide MaybeCompact, CompleteOnce, Accounted;
    var st1 := Append(st, TextMessage(User, cfg.finalizePrompt))
                 .(finalized := true, triggers := st.triggers.(stubOnly := reason.TokenBudget? || reason.BudgetPool?));
    FieldsAccount(cfg, live, st, st1);
    FieldsAccount(cfg, live, st, st.(truncation := reason));
    MaybeCompactAccounts(cfg, live, st1);
    var m := MaybeCompact(cfg, st1);
    CompleteOnceAccounts(cfg, live, m.st, true);
    var c := CompleteOnce(cfg, m.st, true);
    FieldsAccount(cfg, live, c.st, c.st.(truncation := reason));
  }

  lemma {:induction false} DeliverAccounts(st: State, turns: seq<seq<Block>>)
    ensures Deliver(st, turns).charged == st.charged
  {
    if turns != [] {
      DeliverAccounts(st, turns[..|turns| - 1]);
    }
  }

  lemma DrainAccounts(cfg: Config, live: World, st: State)
    requires Accounted(cfg, live, st)
    ensures Accounted(cfg, live, DrainInto(st).1)
  {
    hide Drain, Deliver, Accounted, SameStock;
    DrainStock(st.world);
    var (turns, w) := Drain(st.world);
    DeliverAccounts(st.(world := w), turns);
    AccountSame(cfg, live, st, DrainInto(st).1);
  }

  lemma {:induction false} ResultsAccounts(st: State, calls: seq<ToolCall>, results: seq<ToolRes>)
    requires |results| <= |calls|
    ensures Results(st, calls, results).charged == st.charged
  {
    hide RecordOf, ResMessage;
    if results != [] {
      ResultsAccounts(st, calls, results[..|results| - 1]);
    }
  }

  lemma ToolPhaseAccounts(cfg: Config, live: World, st: State, calls: seq<ToolCall>)
    requires Accounted(cfg, live, st) && forall c | c in calls :: c.id != ""
    ensures Accounted(cfg, live, ToolPhase(cfg, st, calls).st)
  {
    hide ExecuteTools, Results, Stop, Cancelled, Accounted, SameStock;
    var (results, w) := ExecuteTools(st.world, calls, cfg.parallel, cfg.accepts, cfg.outputMax);
    ExecuteStock(st.world, calls, cfg.parallel, cfg.accepts, cfg.outputMax);
    ResultsAccounts(st.(world := w), calls, results);
    var st1 := Results(st.(world := w), calls, results);
    AccountSame(cfg, live, st, st1);
    CancelledStock(w);
    var st2 := st1.(world := Cancelled(w).1);
    AccountSame(cfg, live, st1, st2);
    StopAccounts(cfg, live, st2, TokenBudget);
  }

  lemma NoCallsAccounts(cfg: Config, live: World, st: State, resp: Response)
    requires Accounted(cfg, live, st)
    ensures Accounted(cfg, live, NoCalls(cfg, st, resp).st)
  {
    hide DrainInto, Accounted;
    DrainAccounts(cfg, live, st);
    var st1 := DrainInto(st).1;
    FieldsAccount(cfg, live, st1, st1.(truncation := OutputCap));
    FieldsAccount(cfg, live, st1, st1.(truncation := NoAnswer));
    FieldsAccount(cfg, live, st1, Append(st1.(nudges := st1.nudges + 1),
                                         TextMessage(User, cfg.prompts.emptyTurnNudge)));
  }

  lemma BodyAccounts(cfg: Config, live: World, st: State)
    requires Accounted(cfg, live, st)
    ensures Accounted(cfg, live, Body(cfg, st).st)
  {
    hide DrainInto, MaybeCompact, CompleteOnce, NoCalls, ToolPhase, Accounted;
    DrainAccounts(cfg, live, st);
    var st1 := DrainInto(st).1;
    MaybeCompactAccounts(cfg, live, st1);
    var m := MaybeCompact(cfg, st1);
    CompleteOnceAccounts(cfg, live, m.st, false);
    var c := CompleteOnce(cfg, m.st, false);
    if m.Kept? && c.Completed? {
      NoCallsAccounts(cfg, live, c.st, c.resp);
      ServedCallsAreNamed(cfg, m.st, false);
      ToolPhaseAccounts(cfg, live, c.st, c.resp.toolCalls);
    }
  }

  lemma TurnAccounts(cfg: Config, live: World, st: State)
    requires Accounted(cfg, live, st)
    ensures Accounted(cfg, live, Turn(cfg, st).st)
  {
    hide Body, Stop, PoolExhausted, Cancelled, Accounted, SameStock;
    PoolStock(st.world);
    var st1 := st.(world := PoolExhausted(st.world).1);
    AccountSame(cfg, live, st, st1);
    CancelledStock(st1.world);
    var st2 := st1.(world := Cancelled(st1.world).1);
    AccountSame(cfg, live, st1, st2);
    StopAccounts(cfg, live, st, MaxIterations);
    StopAccounts(cfg, live, st, TokenBudget);
    StopAccounts(cfg, live, st1, BudgetPool);
    BodyAccounts(cfg, live, st2);
  }

  lemma {:induction false} RunAccounts(cfg: Config, live: World, st: State)
    requires Accounted(cfg, live, st)
    ensures Accounted(cfg, live, Run(cfg, st).st)
    decreases Remaining(st.world)
  {
    hide Turn, Accounted;
    TurnAccounts(cfg, live, st);
    if Turn(cfg, st).Again? {
      RunAccounts(cfg, live, Turn(cfg, st).st);
    }
  }

  /** In every run on a live world, and in every run resumed over one, whatever its record and whether it diverges or
      not: the replies it used up are a beginning of the live ones, Outcome.Usage is their usage, the pool was charged
      for each of them and for each summary pass, and the seed is the usage of what the record served. */
  lemma OnlyLiveSpendCounts(cfg: Config, id: string, seed: seq<Message>, task: Message, offered: seq<string>, w: World)
    requires w.Live? || (w.Resuming? && w.live.Live? && exists rec :: NewResume(rec) == Some(w.rs))
    ensures Accounted(cfg, LiveOf(w), Run(cfg, Begin(cfg, id, seed, task, offered, w)).st)
  {
    hide Run, NewReplay;
    var st := Begin(cfg, id, seed, task, offered, w);
    BeginAccounts(cfg, id, seed, task, offered, w);
    RunAccounts(cfg, LiveOf(w), st);
  }

  lemma BeginAccounts(cfg: Config, id: string, seed: seq<Message>, task: Message, offered: seq<string>, w: World)
    requires w.Live? || (w.Resuming? && w.live.Live? && exists rec :: NewResume(rec) == Some(w.rs))
    ensures Accounted(cfg, LiveOf(w), Begin(cfg, id, seed, task, offered, w))
  {
    hide NewResume, Begin, Served, Fees, PassFees, Spend, Flat, Usage.Add;
    var live := LiveOf(w);
    NothingSpent();
    NothingTaken();
    AddZero(ZERO_USAGE);
    BeginFields(cfg, id, seed, task, offered, w);
    if w.Resuming? {
      var rec :| NewResume(rec) == Some(w.rs);
      FreshServedNothing(rec);
      assert LiveOf(w.live) == w.live;
    }
    assert live.replies[0..] == live.replies && live.replies[..0] == [];
    assert Took(cfg, live, Begin(cfg, id, seed, task, offered, w), 0, []);
  }

  lemma NothingTaken()
    ensures Flat([]) == [] && forall cfg: Config :: Fees(cfg, []) == 0 && PassFees(cfg, []) == 0
  {
  }

  lemma BeginFields(cfg: Config, id: string, seed: seq<Message>, task: Message, offered: seq<string>, w: World)
    ensures var st := Begin(cfg, id, seed, task, offered, w); st.world == w && st.usage == ZERO_USAGE && st.charged == 0
  {
  }

  lemma FreshServedNothing(rec: seq<Event>)
    requires NewResume(rec).Some?
    ensures var rs := NewResume(rec).value;
            && rs.rc.idx == rs.rc.nextSummary == 0 && rs.seed == ZERO_USAGE && Served(rs.rc) == ZERO_USAGE
  {
    hide NewReplay, Strict, Served;
    FreshReplay(rec);
    ServedNothing(NewReplay(rec).value);
  }

  lemma FreshReplay(rec: seq<Event>)
    requires NewReplay(rec).Some?
    ensures NewReplay(rec).value.idx == NewReplay(rec).value.nextSummary == 0
  {
    hide Scan, Groups, Replayable, Flush;
  }

  lemma ServedNothing(rc: Replay)
    requires rc.idx == rc.nextSummary == 0
    ensures Served(rc) == ZERO_USAGE
  {
    hide Spend, Flat, StepReplies, Usage.Add;
    var none := rc.responses[..0];
    NoReplies(none);
    assert rc.summaries[..0] == [];
    NothingSpent();
    NothingTaken();
    AddZero(ZERO_USAGE);
  }

  lemma NoReplies(steps: seq<ReplayStep>)
    requires |steps| == 0
    ensures StepReplies(steps) == []
  {
  }
}
