/** A recorded tool turn, resumed: the resume policy decides as the record says, and whatever order the calls are
    dispatched in, each is served its own record (agent/resume.go:302-445). */
module ResumeToolSim {

  import opened Decimal
  import opened Chat
  import opened Record
  import opened ReplayClient
  import opened ReplayScan
  import opened ReplayTools
  import opened ReplayTurn
  import opened ResumeClient
  import opened Worlds
  import opened ReplayAlign
  import opened ReplayToolSim

  // ----- Authorization -----

  predicate Among(call: ToolCall, calls: seq<ToolCall>, n: nat)
    requires n <= |calls|
  {
    exists j :: 0 <= j < n && calls[j] == call
  }

  /** A decision taken in the turn filed as group k: it names its own record. */
  predicate Taken(d: Decided, rc: Replay, k: nat, calls: seq<ToolCall>, n: nat)
    requires n <= |calls|
  {
    && !d.done && d.g == k && k < |rc.groups| && d.rec.Some? && d.rec.value < |rc.groups[k].calls|
    && var call := rc.groups[k].calls[d.rec.value].call; call.id == d.id && call.name == d.name && Among(call, calls, n)
  }

  predicate MarkedNow(g: nat, i: nat, recs: seq<RunRecord>, k: nat, calls: seq<ToolCall>, n: nat)
    requires n <= |calls|
  {
    g == k && i < |recs| && Among(recs[i].call, calls, n)
  }

  /** rs1 is rs after the first n calls of the turn filed as group k were authorized. */
  ghost predicate Ruled(rs1: Resumed, rs: Resumed, k: nat, calls: seq<ToolCall>, n: nat)
    requires n <= |calls|
  {
    var calls_k := if k < |rs.rc.groups| then rs.rc.groups[k].calls else [];
    var denials_k := if k < |rs.rc.groups| then rs.rc.groups[k].denials else [];
    && rs1 == rs.(authorized := rs1.authorized, deniedUsed := rs1.deniedUsed, decisions := rs1.decisions)
    && rs.decisions <= rs1.decisions
    && (forall g: nat, i: nat :: (g, i) in rs1.authorized ==>
        (g, i) in rs.authorized || MarkedNow(g, i, calls_k, k, calls, n))
    && (forall g: nat, i: nat :: (g, i) in rs1.deniedUsed ==>
        (g, i) in rs.deniedUsed || MarkedNow(g, i, denials_k, k, calls, n))
    && (forall m :: |rs.decisions| <= m < |rs1.decisions| ==> Taken(rs1.decisions[m], rs.rc, k, calls, n))
    && (forall l, m :: |rs.decisions| <= l < m < |rs1.decisions| ==> rs1.decisions[l].id != rs1.decisions[m].id)
  }

  /** The call has its decision. */
  ghost predicate HasDecision(rs1: Resumed, rs: Resumed, id: string) {
    exists m :: |rs.decisions| <= m < |rs1.decisions| && rs1.decisions[m].id == id
  }

  /** No mark of an earlier turn is on group k. */
  ghost predicate Unmarked(rs: Resumed, k: nat) {
    && (forall i: nat :: (k, i) !in rs.authorized && (k, i) !in rs.deniedUsed)
    && (forall m :: 0 <= m < |rs.decisions| ==> rs.decisions[m].g != k)
  }

  lemma AmongLonger(call: ToolCall, calls: seq<ToolCall>, n: nat)
    requires n < |calls|
    ensures Among(call, calls, n) ==> Among(call, calls, n + 1)
    ensures Among(calls[n], calls, n + 1)
    ensures DistinctIds(calls) ==> !Among(calls[n], calls, n)
  {
  }

  lemma RuledLonger(rs1: Resumed, rs: Resumed, k: nat, calls: seq<ToolCall>, n: nat)
    requires n < |calls| && Ruled(rs1, rs, k, calls, n)
    ensures Ruled(rs1, rs, k, calls, n + 1)
  {
    hide Among;
    forall call: ToolCall ensures Among(call, calls, n) ==> Among(call, calls, n + 1) {
      AmongLonger(call, calls, n);
    }
  }

  lemma NothingRuled(rs: Resumed, k: nat, calls: seq<ToolCall>)
    ensures Ruled(rs, rs, k, calls, 0)
  {
  }

  /** A recorded denial is served. */
  lemma RuledDenied(rs1: Resumed, rs: Resumed, k: nat, calls: seq<ToolCall>, n: nat, d: nat)
    requires n < |calls| && Ruled(rs1, rs, k, calls, n) && k < |rs.rc.groups|
    requires d < |rs.rc.groups[k].denials| && rs.rc.groups[k].denials[d].call == calls[n]
    ensures Ruled(rs1.(deniedUsed := rs1.deniedUsed + {(k, d)}), rs, k, calls, n + 1)
  {
    hide Among, Taken;
    RuledLonger(rs1, rs, k, calls, n);
    AmongLonger(calls[n], calls, n);
  }

  /** A recorded dispatch is served: the call gets its decision. */
  lemma RuledDispatch(rs1: Resumed, rs: Resumed, k: nat, calls: seq<ToolCall>, n: nat, c: nat, args: string)
    requires n < |calls| && Ruled(rs1, rs, k, calls, n) && k < |rs.rc.groups| && DistinctIds(calls)
    requires c < |rs.rc.groups[k].calls| && rs.rc.groups[k].calls[c].call == calls[n]
    ensures var d := Decided(k, calls[n].id, calls[n].name, Some(c), args, false);
            var rs2 := rs1.(authorized := rs1.authorized + {(k, c)}, decisions := rs1.decisions + [d]);
            Ruled(rs2, rs, k, calls, n + 1) && HasDecision(rs2, rs, calls[n].id)
  {
    var d := Decided(k, calls[n].id, calls[n].name, Some(c), args, false);
    var rs2 := rs1.(authorized := rs1.authorized + {(k, c)}, decisions := rs1.decisions + [d]);
    RuledLonger(rs1, rs, k, calls, n);
    AmongLonger(calls[n], calls, n);
    hide Among;
    assert Taken(d, rs.rc, k, calls, n + 1);
    forall l | |rs.decisions| <= l < |rs1.decisions| ensures rs1.decisions[l].id != d.id {
      TakenEarlier(rs1.decisions[l], rs.rc, k, calls, n);
    }
    assert rs2.decisions[|rs1.decisions|] == d;
  }

  lemma TakenEarlier(d: Decided, rc: Replay, k: nat, calls: seq<ToolCall>, n: nat)
    requires n < |calls| && Taken(d, rc, k, calls, n) && DistinctIds(calls)
    ensures d.id != calls[n].id
  {
    var j :| 0 <= j < n && calls[j] == rc.groups[k].calls[d.rec.value].call;
    assert calls[j].id != calls[n].id;
  }

  lemma HasDecisionStays(rs2: Resumed, rs1: Resumed, rs: Resumed, id: string)
    requires HasDecision(rs1, rs, id) && rs1.decisions <= rs2.decisions
    ensures HasDecision(rs2, rs, id)
  {
    var m :| |rs.decisions| <= m < |rs1.decisions| && rs1.decisions[m].id == id;
    assert rs2.decisions[m] == rs1.decisions[m];
  }

  /** A filed record of a call of the turn is that call's own. */
  lemma OwnRun(o: seq<string>, all: seq<RunAt>, t: seq<RunAt>, calls: seq<ToolCall>, run: RunRecord, i: nat)
    requires TurnIds(t, calls) && i < |t| && run.call == calls[i]
    requires run in ServedCalls(o, all, t) || run in DeniedCalls(o, all, t)
    ensures run == t[i].run
    ensures run in ServedCalls(o, all, t) ==> !run.denied
    ensures run in DeniedCalls(o, all, t) ==> run.denied
  {
    hide ServedCalls, DeniedCalls, Unregistered;
    FiledAreRuns(o, all, t);
    assert IsRunOf(o, all, t, run, false) || IsRunOf(o, all, t, run, true);
    var j :| 0 <= j < |t| && t[j].run == run;
    SameIdSameCall(calls, i, j);
  }

  /** The turn's group, as the resume client sees it. */
  lemma TurnGroup(rc: Replay, tools: seq<string>, a: seq<RunAt>, t: seq<RunAt>, c: seq<RunAt>, step: nat,
                  calls: seq<ToolCall>, i: nat) returns (m: nat)
    requires AtTurn(rc, tools, a, t, c, step, calls) && i < |calls| && calls[i].name in tools
    ensures var k := TurnAt(tools, a, t, c);
            && CurrentGroup(rc, 0) == k && k < |rc.groups| && rc.groups[k].resp == rc.idx - 1
            && rc.groups[k].calls == ServedCalls(tools, a + t + c, t) &&
               rc.groups[k].denials == DeniedCalls(tools, a + t + c, t)
            && (t[i].run.denied ==> m < |rc.groups[k].denials| && rc.groups[k].denials[m] == t[i].run)
            && (!t[i].run.denied ==> m < |rc.groups[k].calls| && rc.groups[k].calls[m] == t[i].run)
  {
    hide Groups, ServedCalls, DeniedCalls, Unregistered, IsUnknownToolRun, TurnAt, UsedIs, RunsTyped;
    AroundTurn(rc, tools, a, t, c, step, calls);
    RegisteredIsTool(rc, tools, a, t, c, step, calls, i);
    RunsAreFiled(tools, a + t + c, t);
    CurrentIs(rc, TurnAt(tools, a, t, c), 0);
    var g := rc.groups[TurnAt(tools, a, t, c)];
    var recs := if t[i].run.denied then g.denials else g.calls;
    assert t[i].run in recs;
    m :| m < |recs| && recs[m] == t[i].run;
  }

  /** A resuming world at the start of a recorded turn. */
  ghost predicate AtResumedTurn(w: World, tools: seq<string>, a: seq<RunAt>, t: seq<RunAt>, c: seq<RunAt>, step: nat,
                                calls: seq<ToolCall>) {
    && w.Resuming? && AtTurn(w.rs.rc, tools, a, t, c, step, calls)
    && !w.rs.diverged && !w.rs.liveActive && MarksOf(w.rs, a)
    && Quiet(w.live) && w.live.Live? && w.live.tools == tools
    && (forall x | x in calls :: x.id != "")
  }

  /** What the record decides for a call: its denial, or the arguments it was dispatched with. */
  function ResumeDecision(tools: seq<string>, call: ToolCall, run: RunRecord): Decision {
    if call.name !in tools then Go(call.args, false)
    else if run.denied then Resolved(DeniedRes(call.name, run.denyReason))
    else Go(run.Args(), run.Args() != call.args)
  }

  lemma TurnIsUnmarked(w: World, tools: seq<string>, a: seq<RunAt>, t: seq<RunAt>, c: seq<RunAt>, step: nat,
                       calls: seq<ToolCall>)
    requires AtResumedTurn(w, tools, a, t, c, step, calls)
    ensures Unmarked(w.rs, TurnAt(tools, a, t, c))
  {
    hide AtTurn, TurnAt, Quiet, Done;
    BehindTurn(w.rs.rc, tools, a, t, c, step, calls, TurnAt(tools, a, t, c));
  }

  /** One more call is authorized as the record says. */
  lemma RuleOne(w: World, rs1: Resumed, tools: seq<string>, a: seq<RunAt>, t: seq<RunAt>, c: seq<RunAt>, step: nat,
                calls: seq<ToolCall>, n: nat)
    requires AtResumedTurn(w, tools, a, t, c, step, calls) && n < |calls| == |t| && calls[n].name in tools
    requires Ruled(rs1, w.rs, TurnAt(tools, a, t, c), calls, n)
    ensures var (ruling, rs2) := RecordedDecision(rs1, calls[n]);
            && Ruled(rs2, w.rs, TurnAt(tools, a, t, c), calls, n + 1) && rs1.decisions <= rs2.decisions
            && (t[n].run.denied ==> ruling == DeniedAs(t[n].run.denyReason))
            && (!t[n].run.denied ==> ruling == Dispatch(t[n].run.Args()) && HasDecision(rs2, w.rs, calls[n].id))
  {
    hide AtTurn, TurnAt, Quiet, ServedCalls, DeniedCalls, Among, Taken, FirstSame, MarksOf, RunRecord.RanWith;
    var k := TurnAt(tools, a, t, c);
    TurnIsUnmarked(w, tools, a, t, c, step, calls);
    AtTurnMeans(w.rs.rc, tools, a, t, c, step, calls);
    var m := TurnGroup(w.rs.rc, tools, a, t, c, step, calls, n);
    AmongLonger(calls[n], calls, n);
    var g := w.rs.rc.groups[k];
    assert rs1.rc == w.rs.rc;
    var d := FirstSame(g.denials, rs1.deniedUsed, k, calls[n], 0);
    var x := FirstSame(g.calls, rs1.authorized, k, calls[n], 0);
    if t[n].run.denied {
      FindOwn(g.denials, rs1.deniedUsed, k, calls, n, m);
      assert g.denials[d] in g.denials;
      OwnRun(tools, a + t + c, t, calls, g.denials[d], n);
      RuledDenied(rs1, w.rs, k, calls, n, d);
    } else {
      FindOwn(g.calls, rs1.authorized, k, calls, n, m);
      NoOwn(tools, a + t + c, t, calls, n, g.denials, rs1.deniedUsed, k);
      assert g.calls[x] in g.calls;
      OwnRun(tools, a + t + c, t, calls, g.calls[x], n);
      RuledDispatch(rs1, w.rs, k, calls, n, x, t[n].run.Args());
    }
  }

  lemma AtTurnMeans(rc: Replay, tools: seq<string>, a: seq<RunAt>, t: seq<RunAt>, c: seq<RunAt>, step: nat,
                    calls: seq<ToolCall>)
    requires AtTurn(rc, tools, a, t, c, step, calls)
    ensures TurnIds(t, calls) && DistinctIds(calls) && |t| == |calls| && forall i :: 0 <= i < |t| ==>
            t[i].run.call == calls[i]
  {
    hide Groups;
  }

  lemma FindOwn(recs: seq<RunRecord>, taken: set<(nat, nat)>, k: nat, calls: seq<ToolCall>, n: nat, m: nat)
    requires n < |calls| && m < |recs| && recs[m].call == calls[n] && !Among(calls[n], calls, n)
    requires forall i: nat :: (k, i) in taken ==> i < |recs| && Among(recs[i].call, calls, n)
    ensures var f := FirstSame(recs, taken, k, calls[n], 0); 0 <= f < |recs| && recs[f].call == calls[n]
  {
    hide Among;
  }

  lemma NoOwn(o: seq<string>, all: seq<RunAt>, t: seq<RunAt>, calls: seq<ToolCall>, n: nat,
              denials: seq<RunRecord>, taken: set<(nat, nat)>, k: nat)
    requires TurnIds(t, calls) && n < |t| && !t[n].run.denied && denials == DeniedCalls(o, all, t)
    ensures FirstSame(denials, taken, k, calls[n], 0) == -1
  {
    hide DeniedCalls, FirstSame;
    var d := FirstSame(denials, taken, k, calls[n], 0);
    if d >= 0 {
      assert denials[d] in denials;
      OwnRun(o, all, t, calls, denials[d], n);
    }
  }

  /** Every call is authorized as the record says. */
  lemma {:induction false} ResumeDecisions(w: World, tools: seq<string>, a: seq<RunAt>, t: seq<RunAt>, c: seq<RunAt>,
                                           step: nat,
                                           calls: seq<ToolCall>, n: nat)
    requires AtResumedTurn(w, tools, a, t, c, step, calls) && n <= |calls| == |t|
    ensures var (ds, w1) := AuthorizeCalls(w, calls[..n]);
            && w1.Resuming? && w1 == w.(rs := w1.rs) && Ruled(w1.rs, w.rs, TurnAt(tools, a, t, c), calls, n)
            && (forall i :: 0 <= i < n ==> ds[i] == ResumeDecision(tools, calls[i], t[i].run))
            && (forall i :: 0 <= i < n && calls[i].name in tools && !t[i].run.denied ==>
                HasDecision(w1.rs, w.rs, calls[i].id))
  {
    hide AtTurn, TurnAt, Quiet, Ruled, HasDecision, RecordedDecision, DeniedRes, MarksOf;
    var k := TurnAt(tools, a, t, c);
    if n == 0 {
      NothingRuled(w.rs, k, calls);
      assert calls[..0] == [];
    } else {
      ResumeDecisions(w, tools, a, t, c, step, calls, n - 1);
      assert calls[..n][..n - 1] == calls[..n - 1];
      var (ds, w1) := AuthorizeCalls(w, calls[..n - 1]);
      AuthorizeNext(w, w1, tools, a, t, c, step, calls, n - 1);
    }
  }

  lemma AuthorizeNext(w: World, w1: World, tools: seq<string>, a: seq<RunAt>, t: seq<RunAt>, c: seq<RunAt>, step: nat,
                      calls: seq<ToolCall>, n: nat)
    requires AtResumedTurn(w, tools, a, t, c, step, calls) && n < |calls| == |t|
    requires w1.Resuming? && w1 == w.(rs := w1.rs) && Ruled(w1.rs, w.rs, TurnAt(tools, a, t, c), calls, n)
    ensures var call := calls[n];
            var (d, w2) := if Registered(w1, call.name) then Authorize(w1, call) else (Go(call.args, false), w1);
            && d == ResumeDecision(tools, call, t[n].run) && w2.Resuming? && w2 == w.(rs := w2.rs)
            && Ruled(w2.rs, w.rs, TurnAt(tools, a, t, c), calls, n + 1) && w1.rs.decisions <= w2.rs.decisions
            && (call.name in tools && !t[n].run.denied ==> HasDecision(w2.rs, w.rs, call.id))
    ensures forall id :: HasDecision(w1.rs, w.rs, id) ==>
              HasDecision((if Registered(w1, calls[n].name) then Authorize(w1, calls[n]) else
                           (Go(calls[n].args, false), w1)).1.rs, w.rs, id)
  {
    hide AtTurn, TurnAt, HasDecision, RecordedDecision, DeniedRes, MarksOf, Quiet, Among, Taken;
    QuietMeans(w.live);
    assert w1.rs.diverged == w.rs.diverged;
    if calls[n].name in tools {
      RuleOne(w, w1.rs, tools, a, t, c, step, calls, n);
      var rs2 := RecordedDecision(w1.rs, calls[n]).1;
      forall id | HasDecision(w1.rs, w.rs, id) ensures HasDecision(rs2, w.rs, id) {
        HasDecisionStays(rs2, w1.rs, w.rs, id);
      }
    } else {
      RuledLonger(w1.rs, w.rs, TurnAt(tools, a, t, c), calls, n);
    }
  }

  // ----- Dispatch -----

  /** rs' is rs1, where the turn filed as group k was authorized on top of rs, after the calls with the given ids
      ran. */
  ghost predicate MidResume(rs': Resumed, rs1: Resumed, old_: nat, k: nat, ids: set<string>) {
    && rs' == rs1.(rc := rs1.rc.(used := rs'.rc.used), decisions := rs'.decisions)
    && |rs'.decisions| == |rs1.decisions|
    && (forall m :: 0 <= m < |rs1.decisions| ==>
          rs'.decisions[m] == rs1.decisions[m].(done := rs1.decisions[m].done ||
                                                (m >= old_ && rs1.decisions[m].id in ids)))
    && (forall g: nat, m: nat :: (g, m) in rs'.rc.used <==>
          || (g, m) in rs1.rc.used
          || (g == k && k < |rs1.rc.groups| && m < |rs1.rc.groups[k].calls| &&
              rs1.rc.groups[k].calls[m].call.id in ids))
  }

  /** The decision of a call that has not run is the only one that fits it. */
  lemma OwnDecision(rs': Resumed, rs1: Resumed, rs: Resumed, k: nat, ids: set<string>, calls: seq<ToolCall>,
                    call: ToolCall, args: string, c: nat) returns (m: nat)
    requires Ruled(rs1, rs, k, calls, |calls|) && Unmarked(rs, k) && MidResume(rs', rs1, |rs.decisions|, k, ids)
    requires k < |rs.rc.groups| && DistinctRunIds(rs.rc.groups[k].calls) && c < |rs.rc.groups[k].calls|
    requires rs.rc.groups[k].calls[c].call == call && args == rs.rc.groups[k].calls[c].Args()
    requires call.id !in ids && HasDecision(rs1, rs, call.id)
    ensures |rs.decisions| <= m < |rs1.decisions| && rs1.decisions[m].id == call.id && rs1.decisions[m].rec == Some(c)
    ensures FirstFit(rs', k, call.id, call.name, args, 0) == m
  {
    hide Among, FirstFit;
    m :| |rs.decisions| <= m < |rs1.decisions| && rs1.decisions[m].id == call.id;
    var recs := rs.rc.groups[k].calls;
    TakenRecord(rs1.decisions[m], rs.rc, k, calls, call, c);
    var f := FirstFit(rs', k, call.id, call.name, args, 0);
    assert Fits(rs'.rc, rs'.decisions[m], k, call.id, call.name, args);
    assert forall x :: 0 <= x < |rs.decisions| ==> rs1.decisions[x] == rs.decisions[x];
    assert forall x :: 0 <= x < |rs.decisions| ==> rs'.decisions[x].g != k;
    assert forall x :: |rs.decisions| <= x < |rs1.decisions| && x != m ==> rs1.decisions[x].id != call.id;
  }

  lemma TakenRecord(d: Decided, rc: Replay, k: nat, calls: seq<ToolCall>, call: ToolCall, c: nat)
    requires Taken(d, rc, k, calls, |calls|) && d.id == call.id
    requires DistinctRunIds(rc.groups[k].calls) && c < |rc.groups[k].calls| && rc.groups[k].calls[c].call == call
    ensures d.rec == Some(c) && d.name == call.name
  {
    hide Among;
    var recs := rc.groups[k].calls;
    assert forall x :: 0 <= x < |recs| && x != c ==> recs[x].call.id != call.id;
  }

  /** One more call of the turn: served exactly its record. */
  lemma ServeNextResumed(w: World, rs1: Resumed, rs: Resumed, k: nat, ids: set<string>, calls: seq<ToolCall>,
                         call: ToolCall, d: Decision, c: nat, accepts: bool, max: int)
    requires w.Resuming? && w.live.Live? && call.name in w.live.tools && call.id != ""
    requires !w.rs.diverged && !w.rs.liveActive && CurrentGroup(w.rs.rc, 0) == k
    requires Ruled(rs1, rs, k, calls, |calls|) && Unmarked(rs, k) && MidResume(w.rs, rs1, |rs.decisions|, k, ids)
    requires k < |rs.rc.groups| && DistinctRunIds(rs.rc.groups[k].calls) && c < |rs.rc.groups[k].calls|
    requires var rec := rs.rc.groups[k].calls[c]; rec.call == call && d.Go? && d.args == rec.Args()
    requires call.id !in ids && HasDecision(rs1, rs, call.id)
    ensures var (res, w') := RunCall(w, call, d, accepts, max);
            && res == ServedRes(rs.rc.groups[k].calls[c], accepts).(dispatchedArgs := Rewritten(d))
            && w'.Resuming? && w' == w.(rs := w'.rs) && MidResume(w'.rs, rs1, |rs.decisions|, k, ids + {call.id})
  {
    hide Among, FirstFit, CallById, ServedRes, RunRecord.RanWith, RunRecord.Args, CurrentGroup, Taken, HasDecision;
    var m := OwnDecision(w.rs, rs1, rs, k, ids, calls, call, d.args, c);
    hide Ruled;
    RuledKeeps(rs1, rs, k, calls);
    var rs2 := w.rs.(decisions := w.rs.decisions[m := w.rs.decisions[m].(done := true)],
                     rc := w.rs.rc.(used := w.rs.rc.used + {(k, c)}));
    assert LookupCall(w.rs, call.id, call.name, d.args) == (FromRecord(rs.rc.groups[k].calls[c]), rs2);
    MarkServed(w.rs, rs1, rs, k, ids, calls, call.id, m, c);
    RunFromRecord(w, call, d, rs.rc.groups[k].calls[c], rs2, accepts, max);
  }

  lemma RunFromRecord(w: World, call: ToolCall, d: Decision, run: RunRecord, rs2: Resumed, accepts: bool, max: int)
    requires w.Resuming? && w.live.Live? && call.name in w.live.tools && call.id != "" && d.Go?
    requires LookupCall(w.rs, call.id, call.name, d.args) == (FromRecord(run), rs2)
    ensures RunCall(w, call, d, accepts, max) ==
              (ServedRes(run, accepts).(dispatchedArgs := Rewritten(d)), w.(rs := rs2))
  {
    hide LookupCall, ServedRes;
    assert Registered(w.live, call.name);
    assert Registered(w, call.name);
  }

  lemma RuledKeeps(rs1: Resumed, rs: Resumed, k: nat, calls: seq<ToolCall>)
    requires Ruled(rs1, rs, k, calls, |calls|)
    ensures rs1.rc == rs.rc && rs1.diverged == rs.diverged && rs1.liveActive == rs.liveActive
    ensures forall l, m :: |rs.decisions| <= l < m < |rs1.decisions| ==> rs1.decisions[l].id != rs1.decisions[m].id
  {
    hide Among, Taken;
  }

  lemma MarkServed(rs': Resumed, rs1: Resumed, rs: Resumed, k: nat, ids: set<string>, calls: seq<ToolCall>, id: string,
                   m: nat, c: nat)
    requires rs1.rc == rs.rc && MidResume(rs', rs1, |rs.decisions|, k, ids)
    requires forall l, n :: |rs.decisions| <= l < n < |rs1.decisions| ==> rs1.decisions[l].id != rs1.decisions[n].id
    requires |rs.decisions| <= m < |rs1.decisions| && rs1.decisions[m].id == id
    requires k < |rs.rc.groups| && DistinctRunIds(rs.rc.groups[k].calls) && c < |rs.rc.groups[k].calls|
    requires rs.rc.groups[k].calls[c].call.id == id
    ensures MidResume(rs'.(decisions := rs'.decisions[m := rs'.decisions[m].(done := true)],
                           rc := rs'.rc.(used := rs'.rc.used + {(k, c)})), rs1, |rs.decisions|, k, ids + {id})
  {
    var recs := rs.rc.groups[k].calls;
    assert forall x :: 0 <= x < |recs| && x != c ==> recs[x].call.id != id;
    assert forall x :: |rs.decisions| <= x < |rs1.decisions| && x != m ==> rs1.decisions[x].id != id;
  }

  /** The turn as it stands when its calls are dispatched. */
  ghost predicate ResumeOpen(w: World, rs: Resumed, k: nat, tools: seq<string>, calls: seq<ToolCall>,
                             ds: seq<Decision>, t: seq<RunAt>) {
    && w.Resuming? && w.live.Live? && w.live.tools == tools && !w.rs.diverged && !w.rs.liveActive
    && |ds| == |calls| == |t| && (forall x | x in calls :: x.id != "") && DistinctIds(calls)
    && Ruled(w.rs, rs, k, calls, |calls|) && Unmarked(rs, k)
    && (forall i :: 0 <= i < |calls| ==> ds[i] == ResumeDecision(tools, calls[i], t[i].run))
    && (forall i :: 0 <= i < |calls| && calls[i].name in tools && !t[i].run.denied ==>
        OpenCall(w.rs, rs, k, calls[i], t[i].run))
  }

  /** A call the record serves: its record is in group k, and it has its decision. */
  ghost predicate OpenCall(rs1: Resumed, rs: Resumed, k: nat, call: ToolCall, rec: RunRecord) {
    && CurrentGroup(rs.rc, 0) == k && k < |rs.rc.groups| && DistinctRunIds(rs.rc.groups[k].calls)
    && rec in rs.rc.groups[k].calls && rec.call == call && HasDecision(rs1, rs, call.id)
  }

  /** What a call of the turn must give. */
  function Given(tools: seq<string>, call: ToolCall, rec: RunRecord, accepts: bool): ToolRes {
    if call.name !in tools then UnknownTool(call.name)
    else if rec.denied then DeniedRes(call.name, rec.denyReason)
    else ServedRes(rec, accepts).(dispatchedArgs := Rewritten(Go(rec.Args(), rec.Args() != call.args)))
  }

  function RunIds(tools: seq<string>, calls: seq<ToolCall>, t: seq<RunAt>, order: seq<nat>): set<string>
    requires |calls| == |t| && forall j :: 0 <= j < |order| ==> order[j] < |calls|
  {
    set j | 0 <= j < |order| && calls[order[j]].name in tools && !t[order[j]].run.denied :: calls[order[j]].id
  }

  lemma RunIdsSnoc(tools: seq<string>, calls: seq<ToolCall>, t: seq<RunAt>, order: seq<nat>)
    requires |calls| == |t| && order != [] && DistinctIds(calls)
    requires (forall j :: 0 <= j < |order| ==> order[j] < |calls|) &&
             (forall i, j :: 0 <= i < j < |order| ==> order[i] != order[j])
    ensures var n := |order| - 1; var i := order[n];
            && RunIds(tools, calls, t, order) ==
                 RunIds(tools, calls, t, order[..n]) +
                   (if calls[i].name in tools && !t[i].run.denied then {calls[i].id} else {})
            && calls[i].id !in RunIds(tools, calls, t, order[..n])
  {
    var n := |order| - 1;
    var prefix := order[..n];
    assert forall j :: 0 <= j < n ==> prefix[j] == order[j];
    forall j | 0 <= j < n ensures calls[prefix[j]].id != calls[order[n]].id {
      assert order[j] != order[n];
    }
  }

  /** Confluence: after any prefix of any dispatch order every dispatched call has its own recorded result, and exactly
      their decisions and records are used. */
  lemma {:induction false} AnyOrderResumes(w: World, rs: Resumed, k: nat, tools: seq<string>, calls: seq<ToolCall>,
                                           ds: seq<Decision>,
                                           t: seq<RunAt>, accepts: bool, max: int, order: seq<nat>)
    requires ResumeOpen(w, rs, k, tools, calls, ds, t)
    requires forall j :: 0 <= j < |order| ==> order[j] < |calls|
    requires forall i, j :: 0 <= i < j < |order| ==> order[i] != order[j]
    ensures var (res, w') := Parallel(w, calls, ds, accepts, max, order);
            && w'.Resuming? && w' == w.(rs := w'.rs)
            && MidResume(w'.rs, w.rs, |rs.decisions|, k, RunIds(tools, calls, t, order))
            && forall j :: 0 <= j < |order| ==> res[order[j]] == Given(tools, calls[order[j]], t[order[j]].run, accepts)
    decreases |order|
  {
    hide RunCall, Given, Ruled, Unmarked, OpenCall, MidResume, DistinctIds, RunIds, Parallel;
    if order == [] {
      NoneResumed(w, calls, ds, accepts, max, order, |rs.decisions|, k, tools, t);
    } else {
      var n := |order| - 1;
      var i, prefix := order[n], order[..n];
      assert order == prefix + [i];
      assert forall j :: 0 <= j < n ==> prefix[j] == order[j];
      AnyOrderResumes(w, rs, k, tools, calls, ds, t, accepts, max, prefix);
      RunIdsSnoc(tools, calls, t, order);
      OneMoreCall(w, calls, ds, accepts, max, prefix, i);
      NextResumed(w, rs, k, tools, calls, ds, t, accepts, max, Parallel(w, calls, ds, accepts, max, prefix).1,
                  RunIds(tools, calls, t, prefix), i);
    }
  }

  lemma NoneResumed(w: World, calls: seq<ToolCall>, ds: seq<Decision>, accepts: bool, max: int, order: seq<nat>,
                    old_: nat, k: nat, tools: seq<string>, t: seq<RunAt>)
    requires w.Resuming? && |calls| == |ds| == |t| && (forall x | x in calls :: x.id != "") && order == []
    ensures Parallel(w, calls, ds, accepts, max, order).1 == w && RunIds(tools, calls, t, order) == {}
    ensures MidResume(w.rs, w.rs, old_, k, {})
  {
  }

  lemma NextResumed(w: World, rs: Resumed, k: nat, tools: seq<string>, calls: seq<ToolCall>, ds: seq<Decision>,
                    t: seq<RunAt>,
                    accepts: bool, max: int, w1: World, ids: set<string>, i: nat)
    requires ResumeOpen(w, rs, k, tools, calls, ds, t) && i < |calls| && calls[i].id !in ids
    requires w1.Resuming? && w1 == w.(rs := w1.rs) && MidResume(w1.rs, w.rs, |rs.decisions|, k, ids)
    ensures var served := calls[i].name in tools && !t[i].run.denied;
            var (res, w') := if ds[i].Resolved? then (ds[i].res, w1) else RunCall(w1, calls[i], ds[i], accepts, max);
            && res == Given(tools, calls[i], t[i].run, accepts) && w'.Resuming? && w' == w.(rs := w'.rs)
            && MidResume(w'.rs, w.rs, |rs.decisions|, k, ids + (if served then {calls[i].id} else {}))
  {
    hide Ruled, Unmarked, MidResume, LookupCall, ServedRes, HasDecision, RunRecord.RanWith;
    assert ids + {} == ids;
    if calls[i].name in tools && !t[i].run.denied {
      assert OpenCall(w.rs, rs, k, calls[i], t[i].run);
      var recs := rs.rc.groups[k].calls;
      var c: nat :| c < |recs| && recs[c] == t[i].run;
      RuledKeeps(w.rs, rs, k, calls);
      MidKeeps(w1.rs, w.rs, rs, k, calls, ids);
      ServeNextResumed(w1, w.rs, rs, k, ids, calls, calls[i], ds[i], c, accepts, max);
    }
  }

  lemma MidKeeps(rs': Resumed, rs1: Resumed, rs: Resumed, k: nat, calls: seq<ToolCall>, ids: set<string>)
    requires Ruled(rs1, rs, k, calls, |calls|) && MidResume(rs', rs1, |rs.decisions|, k, ids)
    ensures rs'.rc == rs.rc.(used := rs'.rc.used) && rs'.diverged == rs.diverged && rs'.liveActive == rs.liveActive
    ensures CurrentGroup(rs'.rc, 0) == CurrentGroup(rs.rc, 0)
  {
    hide Among, Taken;
    SameCurrent(rs'.rc, rs.rc, 0);
  }

  lemma {:induction false} SameCurrent(a: Replay, b: Replay, i: nat)
    requires a.groups == b.groups && a.idx == b.idx && i <= |a.groups|
    ensures CurrentGroup(a, i) == CurrentGroup(b, i)
    decreases |a.groups| - i
  {
    if i < |a.groups| {
      SameCurrent(a, b, i + 1);
    }
  }

  // ----- The whole turn -----

  lemma TurnIsOpen(w: World, w1: World, tools: seq<string>, a: seq<RunAt>, t: seq<RunAt>, c: seq<RunAt>, step: nat,
                   calls: seq<ToolCall>, ds: seq<Decision>)
    requires AtResumedTurn(w, tools, a, t, c, step, calls) && |ds| == |calls| == |t|
    requires w1.Resuming? && w1 == w.(rs := w1.rs, orders := w1.orders)
    requires Ruled(w1.rs, w.rs, TurnAt(tools, a, t, c), calls, |calls|)
    requires forall i :: 0 <= i < |calls| ==> ds[i] == ResumeDecision(tools, calls[i], t[i].run)
    requires forall i :: 0 <= i < |calls| && calls[i].name in tools && !t[i].run.denied ==>
             HasDecision(w1.rs, w.rs, calls[i].id)
    ensures ResumeOpen(w1, w.rs, TurnAt(tools, a, t, c), tools, calls, ds, t)
  {
    hide AtTurn, TurnAt, Quiet, Ruled, HasDecision, MarksOf, ResumeDecision, ServedCalls, DeniedCalls, Unmarked,
         DistinctIds;
    RuledKeeps(w1.rs, w.rs, TurnAt(tools, a, t, c), calls);
    TurnIsUnmarked(w, tools, a, t, c, step, calls);
    AtTurnMeans(w.rs.rc, tools, a, t, c, step, calls);
    ServedIdsDistinct(tools, a + t + c, t, calls);
    forall i: nat | i < |calls| && calls[i].name in tools && !t[i].run.denied
      ensures OpenCall(w1.rs, w.rs, TurnAt(tools, a, t, c), calls[i], t[i].run)
    {
      var m := TurnGroup(w.rs.rc, tools, a, t, c, step, calls, i);
      assert t[i].run in w.rs.rc.groups[TurnAt(tools, a, t, c)].calls;
    }
  }

  /** What a call of the turn gives is what the recorded run fed back. */
  lemma GivenIsFed(tools: seq<string>, call: ToolCall, res: ToolRes, accepts: bool)
    requires LiveResult(tools, call, res, accepts)
    ensures FreeFeed(call, res, Given(tools, call, RecordOf(call, res), accepts))
  {
    hide BlocksText, ResMessage;
    if call.name in tools && !res.denied {
      hide ServedRes;
      var base := res.(dispatchedArgs := None);
      ServedReproduces(call, base, accepts);
      ServedAlike(RecordOf(call, res), RecordOf(call, base), accepts);
      hide LiveResult, Produced, PlainBlocks;
      MessageAlike(call, res, base);
      MessageAlike(call, Given(tools, call, RecordOf(call, res), accepts), ServedRes(RecordOf(call, base), accepts));
    }
  }

  /** The dispatched arguments are not part of what is served. */
  lemma ServedAlike(a: RunRecord, b: RunRecord, accepts: bool)
    requires a.(dispatchedArgs := b.dispatchedArgs) == b
    ensures ServedRes(a, accepts) == ServedRes(b, accepts) && !ServedRes(a, accepts).denied
    ensures ServedRes(a, accepts).dispatchedArgs == None
  {
    hide BlocksText;
  }

  lemma MessageAlike(call: ToolCall, a: ToolRes, b: ToolRes)
    requires a.(dispatchedArgs := b.dispatchedArgs) == b
    ensures ResMessage(a, call.id) == ResMessage(b, call.id)
    ensures RecordOf(call, a) == RecordOf(call, b).(dispatchedArgs := a.dispatchedArgs)
  {
  }

  /** A rewritten call, resumed: its record gives back the arguments it was dispatched with, and the resumed call
      records them as the recorded one did, except where an empty rewrite of "null" reads as no rewrite. */
  lemma RewriteIsTold(call: ToolCall, args: string, run: RunRecord)
    requires run.call == call && run.dispatchedArgs == Rewritten(Go(args, args != call.args))
    ensures run.RanWith(args)
    ensures Rewritten(Go(run.Args(), run.Args() != call.args)) == FreeRun(run).dispatchedArgs
    ensures FreeRun(run) == run <==> !(call.args == "null" && args == "")
  {
  }

  function ReplayDecisionsOf(tools: seq<string>, calls: seq<ToolCall>, t: seq<RunAt>): (ds: seq<Decision>)
    requires |calls| == |t|
    ensures |ds| == |calls| && forall i :: 0 <= i < |ds| ==> ds[i] == ReplayDecision(tools, calls[i], t[i].run)
  {
    seq(|calls|, i requires 0 <= i < |calls| => ReplayDecision(tools, calls[i], t[i].run))
  }

  lemma RunIdsAreServed(rc: Replay, tools: seq<string>, a: seq<RunAt>, t: seq<RunAt>, c: seq<RunAt>, step: nat,
                        calls: seq<ToolCall>, ds: seq<Decision>, order: seq<nat>)
    requires AtTurn(rc, tools, a, t, c, step, calls) && |ds| == |calls| == |t| && forall j :: 0 <= j < |order| ==>
             order[j] < |calls|
    requires forall i :: 0 <= i < |calls| ==> ds[i] == ReplayDecision(tools, calls[i], t[i].run)
    ensures RunIds(tools, calls, t, order) == ServedIds(rc, calls, ds, order)
  {
    hide AtTurn, Registers, DeniedRes;
    forall j | 0 <= j < |order|
      ensures Dispatched(rc, calls[order[j]], ds[order[j]]) <==>
              calls[order[j]].name in tools && !t[order[j]].run.denied
    {
      RegisteredIsTool(rc, tools, a, t, c, step, calls, order[j]);
    }
  }

  lemma MarksAfter(rs': Resumed, rs1: Resumed, rs: Resumed, k: nat, ids: set<string>, calls: seq<ToolCall>,
                   a: seq<RunAt>, t: seq<RunAt>, step: nat)
    requires Ruled(rs1, rs, k, calls, |calls|) && MidResume(rs', rs1, |rs.decisions|, k, ids) && MarksOf(rs, a)
    requires OneTurn(t, step, rs.rc.idx - 1) && t != [] &&
             (k < |rs.rc.groups| ==> rs.rc.groups[k].resp == rs.rc.idx - 1)
    ensures MarksOf(rs', a + t)
  {
    hide Among, Done;
    DoneAfter(a, t, step, rs.rc.idx - 1);
    assert forall m :: 0 <= m < |rs.decisions| ==> rs1.decisions[m] == rs.decisions[m];
  }

  /** With nothing of the turn on record there is nothing to mark. */
  lemma NoMarksAfter(rs': Resumed, rs1: Resumed, rs: Resumed, k: nat, ids: set<string>, calls: seq<ToolCall>,
                     a: seq<RunAt>, t: seq<RunAt>, step: nat)
    requires Ruled(rs1, rs, k, calls, |calls|) && MidResume(rs', rs1, |rs.decisions|, k, ids) && MarksOf(rs, a)
    requires OneTurn(t, step, rs.rc.idx - 1) && t != []
    requires rs1.authorized == rs.authorized && rs1.deniedUsed == rs.deniedUsed && rs1.decisions == rs.decisions
    ensures MarksOf(rs', a + t)
  {
    hide Among, Done, Taken;
    DoneAfter(a, t, step, rs.rc.idx - 1);
  }

  /** The resumed turn: every result feeds back what was recorded, nothing live is touched, and the client moves past
      the turn. */
  lemma ResumedTurn(w: World, tools: seq<string>, a: seq<RunAt>, t: seq<RunAt>, c: seq<RunAt>, step: nat,
                    calls: seq<ToolCall>, rs: seq<ToolRes>, parallel: bool, accepts: bool, max: int)
    requires AtResumedTurn(w, tools, a, t, c, step, calls) && calls != [] && |rs| == |calls| == |t|
    requires forall i :: 0 <= i < |calls| ==>
             t[i].run == RecordOf(calls[i], rs[i]) && LiveResult(tools, calls[i], rs[i], accepts)
    ensures var (rs', w') := ExecuteTools(w, calls, parallel, accepts, max);
            && w'.Resuming? && |rs'| == |calls| && w'.live == w.live && (w.orders == [] ==> w'.orders == [])
            && w'.rs.rc == w.rs.rc.(used := w'.rs.rc.used) && w'.rs.strict == w.rs.strict && w'.rs.seed == w.rs.seed
            && !w'.rs.diverged && !w'.rs.liveActive
            && UsedIs(w'.rs.rc, a + t) && MarksOf(w'.rs, a + t)
            && forall i :: 0 <= i < |calls| ==> FreeFeed(calls[i], rs[i], rs'[i])
  {
    hide AtTurn, AuthorizeCalls, Parallel, ExecuteTools, LiveResult, RecordOf, UsedIs, ResumeDecision, MarksOf, Ruled,
         Given, TurnAt, Quiet, MidResume, ResumeOpen, RunIds, ServedIds, HasDecision, FreeFeed;
    var k := TurnAt(tools, a, t, c);
    ResumeDecisions(w, tools, a, t, c, step, calls, |calls|);
    assert calls[..|calls|] == calls;
    var (ds, w1) := AuthorizeCalls(w, calls);
    TurnIsOpen(w, w1, tools, a, t, c, step, calls, ds);
    forall m: nat | m < |calls| ensures Unstopped(Parallel(w1, calls, ds, accepts, max, Identity(|calls|)[..m]).1) {
      AnyOrderResumes(w1, w.rs, k, tools, calls, ds, t, accepts, max, Identity(|calls|)[..m]);
      LiveUnstopped(Parallel(w1, calls, ds, accepts, max, Identity(|calls|)[..m]).1);
    }
    var order, w2 := ExecutesInSomeOrder(w, calls, parallel, accepts, max, ds, w1);
    TurnIsOpen(w, w2, tools, a, t, c, step, calls, ds);
    AnyOrderResumes(w2, w.rs, k, tools, calls, ds, t, accepts, max, order);
    var (rs', w') := Parallel(w2, calls, ds, accepts, max, order);
    if forall i :: 0 <= i < |calls| ==> calls[i].name !in tools {
      NothingToRule(w, calls);
    }
    AfterTurn(w, w2.rs, w'.rs, tools, a, t, c, step, calls, order);
    forall i: nat | i < |calls| ensures FreeFeed(calls[i], rs[i], rs'[i]) {
      OrderCovers(order, |calls|, i);
      GivenIsFed(tools, calls[i], rs[i], accepts);
    }
  }

  lemma LiveUnstopped(w: World)
    requires w.Resuming? && Quiet(w.live)
    ensures Unstopped(w)
  {
    hide Drain, PoolExhausted;
  }

  lemma AfterTurn(w: World, rs1: Resumed, rs': Resumed, tools: seq<string>, a: seq<RunAt>, t: seq<RunAt>,
                  c: seq<RunAt>, step: nat, calls: seq<ToolCall>, order: seq<nat>)
    requires AtResumedTurn(w, tools, a, t, c, step, calls) && calls != [] && |calls| == |t| && IsOrder(order, |calls|)
    requires Ruled(rs1, w.rs, TurnAt(tools, a, t, c), calls, |calls|)
    requires MidResume(rs', rs1, |w.rs.decisions|, TurnAt(tools, a, t, c), RunIds(tools, calls, t, order))
    requires (forall i :: 0 <= i < |calls| ==> calls[i].name !in tools) ==> rs1 == w.rs
    ensures rs' == rs'.(rc := w.rs.rc.(used := rs'.rc.used), strict := w.rs.strict, seed := w.rs.seed,
                        diverged := false, liveActive := false)
    ensures UsedIs(rs'.rc, a + t) && MarksOf(rs', a + t)
  {
    hide Quiet, RunIds, ServedIds, Groups, RunsTyped, TurnIds, Among, Taken, UsedIs, TurnAt, DistinctIds;
    var k := TurnAt(tools, a, t, c);
    var ds := ReplayDecisionsOf(tools, calls, t);
    RunIdsAreServed(w.rs.rc, tools, a, t, c, step, calls, ds, order);
    BehindTurn(w.rs.rc, tools, a, t, c, step, calls, k);
    TurnUses(w.rs.rc, rs'.rc, tools, a, t, c, step, calls, ds, order);
    AroundTurn(w.rs.rc, tools, a, t, c, step, calls);
    hide MarksOf;
    if k < |w.rs.rc.groups| && w.rs.rc.groups[k].resp != w.rs.rc.idx - 1 {
      NoneRegistered(w.rs.rc, tools, a, t, c, step, calls);
      NoMarksAfter(rs', rs1, w.rs, k, RunIds(tools, calls, t, order), calls, a, t, step);
    } else {
      MarksAfter(rs', rs1, w.rs, k, RunIds(tools, calls, t, order), calls, a, t, step);
    }
  }

  /** A turn without a group has no call to a registered tool. */
  lemma NoneRegistered(rc: Replay, tools: seq<string>, a: seq<RunAt>, t: seq<RunAt>, c: seq<RunAt>, step: nat,
                       calls: seq<ToolCall>)
    requires AtTurn(rc, tools, a, t, c, step, calls)
    requires var k := TurnAt(tools, a, t, c); k < |rc.groups| && rc.groups[k].resp != rc.idx - 1
    ensures forall i :: 0 <= i < |calls| ==> calls[i].name !in tools
  {
    hide AtTurn, TurnAt, ServedCalls, DeniedCalls;
    if i: nat :| i < |calls| && calls[i].name in tools {
      var m := TurnGroup(rc, tools, a, t, c, step, calls, i);
      assert false;
    }
  }

  lemma {:induction false} NothingToRule(w: World, calls: seq<ToolCall>)
    requires w.Resuming? && w.live.Live? && forall i :: 0 <= i < |calls| ==> calls[i].name !in w.live.tools
    ensures AuthorizeCalls(w, calls).1 == w
  {
    if calls != [] {
      NothingToRule(w, calls[..|calls| - 1]);
      assert !Registered(w.live, calls[|calls| - 1].name);
    }
  }
}
