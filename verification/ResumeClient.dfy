/** The resume client (agent/resume.go): it serves the record's completions, summaries, policy decisions and tool
    calls while they last, with zero usage, and counts what it served in the budget seed. */
module ResumeClient {

  import opened Decimal
  import opened Chat
  import opened Summaries
  import opened Record
  import opened ReplayClient

  /** How one authorized call of the replayed turn runs: its record serves it, or it runs live with these arguments. */
  datatype Decided = Decided(g: nat, id: string, name: string, rec: Option<nat>, args: string, done: bool)

  datatype Resumed = Resumed(rc: Replay, strict: seq<Request>, seed: Usage, diverged: bool, liveActive: bool,
                             authorized: set<(nat, nat)>, deniedUsed: set<(nat, nat)>, decisions: seq<Decided>)

  /** The requests the record serves, in serving order. */
  function Strict(evs: seq<Event>): seq<Request> {
    if evs == [] then []
    else
      var ev := evs[|evs| - 1];
      Strict(evs[..|evs| - 1]) + if ev.Completion? && !ev.purpose && !ev.reply.Failed? then [ev.req] else []
  }

  /** `NewResume`: a record with a steering event, without a completion, or one no replay accepts is refused. */
  function NewResume(evs: seq<Event>): Option<Resumed> {
    if (exists i :: 0 <= i < |evs| && evs[i].Steered?) || Strict(evs) == [] then None
    else
      match NewReplay(evs)
      case None => None
      case Some(rc) => Some(Resumed(rc, Strict(evs), ZERO_USAGE, false, false, {}, {}, []))
  }

  /** The record still has a completion to serve. */
  predicate InPrefix(rs: Resumed) {
    rs.rc.idx < |rs.rc.responses|
  }

  // ----- Completions and summaries -----

  function WithoutUsage(r: Reply): Reply {
    if r.Answer? then Answer(r.resp.(usage := ZERO_USAGE)) else r
  }

  function Stripped(calls: seq<Reply>): (r: seq<Reply>)
    ensures |r| == |calls| && forall i :: 0 <= i < |r| ==> r[i] == WithoutUsage(calls[i])
  {
    seq(|calls|, i requires 0 <= i < |calls| => WithoutUsage(calls[i]))
  }

  /** Served from the record, a pass costs nothing. */
  lemma {:induction false} StrippedIsFree(calls: seq<Reply>)
    ensures Spend(Stripped(calls)) == ZERO_USAGE
  {
    if calls != [] {
      var n := |calls| - 1;
      StrippedIsFree(calls[..n]);
      assert Stripped(calls)[..n] == Stripped(calls[..n]);
    }
  }

  /** `resumeClient.Complete` while the record serves: the request must be the recorded one. */
  function ServePrefix(rs: Resumed, req: Request): (Reply, Resumed)
    requires !rs.diverged && InPrefix(rs)
  {
    if rs.rc.idx >= |rs.strict| || rs.strict[rs.rc.idx] != req then (Failed("mismatch"), rs.(diverged := true))
    else
      var (reply, rc) := Serve(rs.rc, req);
      match reply
      case Answer(resp) => (WithoutUsage(reply), rs.(rc := rc, seed := rs.seed.Add(resp.usage)))
      case Overflow(_) => (reply, rs.(rc := rc))
      case Failed(_) => (Failed("mismatch"), rs.(rc := rc, diverged := true))
  }

  /** The record still owns a compaction pass. */
  predicate OwnsPass(rs: Resumed) {
    InPrefix(rs) || rs.rc.nextSummary < |rs.rc.summaries|
  }

  /** `resumeCompactor.Compact` at a cut while the record owns the pass: its model calls, or none left. */
  function ServePass(rs: Resumed): (Option<seq<Reply>>, Resumed)
    requires !rs.diverged && OwnsPass(rs)
  {
    if rs.rc.nextSummary >= |rs.rc.summaries| || rs.rc.summaries[rs.rc.nextSummary] == [] then (None, rs)
    else
      var calls := rs.rc.summaries[rs.rc.nextSummary];
      (Some(Stripped(calls)), rs.(rc := rs.rc.(nextSummary := rs.rc.nextSummary + 1),
                                  seed := rs.seed.Add(Spend(calls))))
  }

  // ----- Policy and tools -----

  /** What the record says of a call to authorize. `Live` names the turn it falls in, -1 for none. */
  datatype Ruling = DeniedAs(reason: string) | Dispatch(args: string) | RunLive(g: int) | Mismatch

  /** First index from i on of a call of the turn that is `call` and not taken, -1 for none. */
  function FirstSame(recs: seq<RunRecord>, taken: set<(nat, nat)>, g: nat, call: ToolCall, i: nat): (m: int)
    requires i <= |recs|
    ensures m == -1 || (i <= m < |recs| && (g, m as nat) !in taken && recs[m].call == call)
    ensures m == -1 ==> forall j: nat :: i <= j < |recs| && recs[j].call == call ==> (g, j) in taken
    decreases |recs| - i
  {
    if i == |recs| then -1
    else if (g, i) !in taken && recs[i].call == call then i
    else FirstSame(recs, taken, g, call, i + 1)
  }

  /** `recordedDecision`. */
  function RecordedDecision(rs: Resumed, call: ToolCall): (Ruling, Resumed) {
    if call.id == "" || rs.liveActive then (RunLive(-1), rs)
    else
      var g := CurrentGroup(rs.rc, 0);
      var d := if g < 0 then -1 else FirstSame(rs.rc.groups[g].denials, rs.deniedUsed, g, call, 0);
      var c := if g < 0 then -1 else FirstSame(rs.rc.groups[g].calls, rs.authorized, g, call, 0);
      if d >= 0 then
        (DeniedAs(rs.rc.groups[g].denials[d].denyReason), rs.(deniedUsed := rs.deniedUsed + {(g as nat, d as nat)}))
      else if c >= 0 then
        var rec := rs.rc.groups[g].calls[c];
        (Dispatch(rec.Args()), rs.(authorized := rs.authorized + {(g as nat, c as nat)},
                                   decisions := rs.decisions + [Decided(g, call.id, call.name, Some(c), rec.Args(),
                                       false)]))
      else if InPrefix(rs) then (Mismatch, rs.(diverged := true))
      else (RunLive(g), rs)
  }

  /** A call the caller's policy let run in the turn being replayed. */
  function NoteLive(rs: Resumed, g: int, call: ToolCall, args: string): Resumed {
    if g < 0 then rs else rs.(decisions := rs.decisions + [Decided(g, call.id, call.name, None, args, false)])
  }

  /** The decision fits the dispatched call. */
  predicate Fits(rc: Replay, d: Decided, g: nat, id: string, name: string, args: string) {
    && !d.done && d.g == g && d.id == id && d.name == name
    && match d.rec
       case Some(c) => g < |rc.groups| && c < |rc.groups[g].calls| && rc.groups[g].calls[c].RanWith(args)
       case None => d.args == args
  }

  /** First pending decision from i on that fits, -1 for none. */
  function FirstFit(rs: Resumed, g: nat, id: string, name: string, args: string, i: nat): (m: int)
    requires i <= |rs.decisions|
    ensures m == -1 || (i <= m < |rs.decisions| && Fits(rs.rc, rs.decisions[m], g, id, name, args))
    ensures m == -1 ==> forall j :: i <= j < |rs.decisions| ==> !Fits(rs.rc, rs.decisions[j], g, id, name, args)
    decreases |rs.decisions| - i
  {
    if i == |rs.decisions| then -1
    else if Fits(rs.rc, rs.decisions[i], g, id, name, args) then i
    else FirstFit(rs, g, id, name, args, i + 1)
  }

  datatype Found = FromRecord(run: RunRecord) | FromLive | NotFound

  function ServeRecord(rs: Resumed, g: nat, c: nat): (Found, Resumed)
    requires g < |rs.rc.groups| && c < |rs.rc.groups[g].calls|
  {
    (FromRecord(rs.rc.groups[g].calls[c]), rs.(rc := rs.rc.(used := rs.rc.used + {(g, c)})))
  }

  /** Past the record everything is live; before that, a call without a record is a mismatch. */
  function NoCounterpart(rs: Resumed): (Found, Resumed) {
    if InPrefix(rs) then (NotFound, rs.(diverged := true)) else (FromLive, rs)
  }

  /** `lookupCall`: the decision taken for the call, else its record, else live. */
  function LookupCall(rs: Resumed, id: string, name: string, args: string): (Found, Resumed) {
    if rs.diverged then (NotFound, rs)
    else
      var g := if id == "" || rs.liveActive then -1 else CurrentGroup(rs.rc, 0);
      if g < 0 then NoCounterpart(rs)
      else
        var d := FirstFit(rs, g, id, name, args, 0);
        var c := CallById(rs.rc.(gi := g), id, name, args, 0, -1);
        if d >= 0 then
          var taken := rs.(decisions := rs.decisions[d := rs.decisions[d].(done := true)]);
          if rs.decisions[d].rec.None? then (FromLive, taken) else ServeRecord(taken, g, rs.decisions[d].rec.value)
        else if c < 0 then NoCounterpart(rs)
        else if !CallFits(rs.rc.groups[g].calls[c], name, args) then (NotFound, rs.(diverged := true))
        else ServeRecord(rs, g, c)
  }
}
