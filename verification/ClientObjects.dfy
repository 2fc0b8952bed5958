/** The replay and resume clients as the objects they are: fields that calls update under a lock
    (agent/replay.go:435-470, 789-945; agent/resume.go:234-262, 316-445, 455-478). */
module ClientObjects {

  import opened Decimal
  import opened Chat
  import opened Summaries
  import opened Record
  import opened ReplayClient
  import opened ResumeClient

  class ReplayObject {
    const responses: seq<ReplayStep>
    const groups: seq<Group>
    const summaries: seq<seq<Reply>>
    var idx: nat
    var gi: nat
    var used: set<(nat, nat)>
    var diverged: bool
    var unreproduced: bool
    var nextSummary: nat

    ghost function View(): Replay
      reads this
    {
      Replay(responses, idx, groups, gi, used, diverged, unreproduced, summaries, nextSummary)
    }

    constructor (rc: Replay)
      ensures View() == rc
    {
      responses, groups, summaries := rc.responses, rc.groups, rc.summaries;
      idx, gi, used, diverged := rc.idx, rc.gi, rc.used, rc.diverged;
      unreproduced, nextSummary := rc.unreproduced, rc.nextSummary;
    }

    /** `Complete`. */
    method Complete(req: Request) returns (reply: Reply)
      modifies this`idx, this`diverged, this`unreproduced
      ensures (reply, View()) == Serve(old(View()), req)
    {
      hide TrailingIds;
      if diverged {
        return Failed("diverged");
      }
      if idx >= |responses| {
        diverged := true;
        return Failed("exhausted");
      }
      var step := responses[idx];
      if step.expectIds != [] {
        var got := TrailingIds(req.messages, |step.expectIds|);
        if got != step.expectIds {
          diverged := true;
          return Failed("mismatch");
        }
      }
      if step.afterCompaction.Some? && !unreproduced && step.afterCompaction.value != req.messages {
        unreproduced := true;
      }
      idx := idx + 1;
      return step.reply;
    }

    /** `callByID`: a scan that remembers the first unused call with the id until one fits. */
    method FindCall(g: nat, id: string, name: string, args: string) returns (found: int)
      requires g < |groups|
      ensures found == CallById(View().(gi := g), id, name, args, 0, -1)
    {
      hide CallFits;
      var calls := groups[g].calls;
      found := -1;
      for i := 0 to |calls|
        invariant found == -1 || 0 <= found < |calls|
        invariant CallById(View().(gi := g), id, name, args, i, found) ==
                  CallById(View().(gi := g), id, name, args, 0, -1)
      {
        if (g, i) !in used && calls[i].call.id == id {
          if CallFits(calls[i], name, args) {
            return i;
          }
          if found < 0 {
            found := i;
          }
        }
      }
    }

    /** `currentGroup`: the first turn the last served response asked for. */
    method FindCurrent() returns (g: int)
      ensures g == CurrentGroup(View(), 0)
    {
      for i := 0 to |groups|
        invariant CurrentGroup(View(), i) == CurrentGroup(View(), 0)
      {
        if groups[i].resp == idx - 1 {
          return i;
        }
      }
      return -1;
    }

    method HasUnused() returns (r: bool)
      requires gi < |groups|
      ensures r <==> exists i: nat :: i < |groups[gi].calls| && Unused(View(), gi, i)
    {
      var calls := groups[gi].calls;
      for i := 0 to |calls|
        invariant forall k: nat :: k < i ==> !Unused(View(), gi, k)
      {
        if (gi, i) !in used {
          assert Unused(View(), gi, i);
          return true;
        }
      }
      return false;
    }

    /** `serveCall`: turns that are used up are left behind until one has the call or refuses it. */
    method Dispatch(id: string, name: string, args: string) returns (served: Served)
      requires id != ""
      modifies this`gi, this`used, this`diverged
      ensures (served, View()) == ServeCall(old(View()), id, name, args)
    {
      hide CallById, CallFits;
      while gi < |groups|
        invariant ServeCall(View(), id, name, args) == ServeCall(old(View()), id, name, args)
        decreases |groups| - gi
      {
        var g := groups[gi];
        var match_ := -1;
        if g.resp == idx - 1 {
          match_ := FindCall(gi, id, name, args);
          assert View().(gi := gi) == View();
        }
        if match_ >= 0 {
          var run := g.calls[match_];
          if !CallFits(run, name, args) {
            diverged := true;
            return NoMatch;
          }
          used := used + {(gi, match_)};
          return ServedCall(run);
        }
        var unused := HasUnused();
        if unused {
          diverged := true;
          return NoMatch;
        }
        ghost var before := View();
        gi := gi + 1;
        assert View() == before.(gi := before.gi + 1);
      }
      diverged := true;
      return NoMatch;
    }

    /** `Err` and `unreached`: a clean replay is one that served all it had to. */
    method Err() returns (clean: bool)
      ensures clean <==> ReplayClean(View())
    {
      if diverged || unreproduced {
        return false;
      }
      if idx == 0 {
        return true;
      }
      if idx < |responses| {
        return false;
      }
      for g := 0 to |groups|
        invariant forall h: nat, i: nat :: h < g && i < |groups[h].calls| ==> (h, i) in used
      {
        for i := 0 to |groups[g].calls|
          invariant forall k: nat :: k < i ==> (g, k) in used
        {
          if (g, i) !in used {
            return false;
          }
        }
      }
      return true;
    }
  }

  /** What the record gives, the divergence that refuses the call, or nothing: the call goes to what is behind the
      record. */
  datatype Origin<T> = Replayed(value: T) | Refused | Forwarded

  class ResumeObject {
    const rc: ReplayObject
    const strict: seq<Request>
    var seed: Usage
    var diverged: bool
    var liveActive: bool
    var authorized: set<(nat, nat)>
    var deniedUsed: set<(nat, nat)>
    var decisions: seq<Decided>

    ghost function View(): Resumed
      reads this, rc
    {
      Resumed(rc.View(), strict, seed, diverged, liveActive, authorized, deniedUsed, decisions)
    }

    constructor (rs: Resumed)
      ensures View() == rs && fresh(rc)
    {
      var client := new ReplayObject(rs.rc);
      rc, strict := client, rs.strict;
      seed, diverged, liveActive := rs.seed, rs.diverged, rs.liveActive;
      authorized, deniedUsed, decisions := rs.authorized, rs.deniedUsed, rs.decisions;
    }

    /** `resumeClient.Complete`: recorded spend goes to the seed and is never charged again. */
    method Complete(req: Request) returns (reply: Origin<Reply>)
      modifies this`seed, this`diverged, this`liveActive, rc
      ensures var rs := old(View());
              if rs.diverged then reply.Refused? && View() == rs
              else if InPrefix(rs) then reply.Replayed? && (reply.value, View()) == ServePrefix(rs, req)
              else reply.Forwarded? && View() == rs.(liveActive := true)
    {
      hide Serve, Usage.Add;
      if diverged {
        return Refused;
      }
      if rc.idx >= |rc.responses| {
        liveActive := true;
        return Forwarded;
      }
      if rc.idx >= |strict| || strict[rc.idx] != req {
        diverged := true;
        return Replayed(Failed("mismatch"));
      }
      var served := rc.Complete(req);
      if served.Failed? {
        diverged := true;
        return Replayed(Failed("mismatch"));
      }
      if served.Answer? {
        seed := seed.Add(served.resp.usage);
        served := Answer(served.resp.(usage := ZERO_USAGE));
      }
      return Replayed(served);
    }

    /** `resumeCompactor.Compact` at a cut, as far as its model calls go. */
    method Compact() returns (calls: Origin<Option<seq<Reply>>>)
      modifies this`seed, rc`nextSummary
      ensures var rs := old(View());
              if rs.diverged then calls.Refused? && View() == rs
              else if OwnsPass(rs) then calls.Replayed? && (calls.value, View()) == ServePass(rs)
              else calls.Forwarded? && View() == rs
    {
      hide Usage.Add, Spend;
      if diverged {
        return Refused;
      }
      if rc.idx >= |rc.responses| && rc.nextSummary >= |rc.summaries| {
        return Forwarded;
      }
      if rc.nextSummary >= |rc.summaries| || rc.summaries[rc.nextSummary] == [] {
        return Replayed(None);
      }
      var recorded := rc.summaries[rc.nextSummary];
      rc.nextSummary := rc.nextSummary + 1;
      seed := seed.Add(Spend(recorded));
      var out := StripUsage(recorded);
      return Replayed(Some(out));
    }

    method StripUsage(calls: seq<Reply>) returns (out: seq<Reply>)
      ensures out == Stripped(calls)
    {
      out := [];
      for i := 0 to |calls|
        invariant out == Stripped(calls)[..i]
      {
        out := out + [if calls[i].Answer? then Answer(calls[i].resp.(usage := ZERO_USAGE)) else calls[i]];
      }
    }

    /** The two scans of `recordedDecision`. */
    method FindSame(recs: seq<RunRecord>, taken: set<(nat, nat)>, g: nat, call: ToolCall) returns (m: int)
      ensures m == FirstSame(recs, taken, g, call, 0)
    {
      for i := 0 to |recs|
        invariant FirstSame(recs, taken, g, call, i) == FirstSame(recs, taken, g, call, 0)
      {
        if (g, i) !in taken && recs[i].call == call {
          return i;
        }
      }
      return -1;
    }

    /** `recordedDecision`: the call's unused denial, else its unused dispatch, else live behind the record. */
    method Decide(call: ToolCall) returns (ruling: Ruling)
      modifies this`authorized, this`deniedUsed, this`decisions, this`diverged
      ensures (ruling, View()) == RecordedDecision(old(View()), call)
    {
      hide CurrentGroup, FirstSame;
      if call.id == "" || liveActive {
        return RunLive(-1);
      }
      var g := rc.FindCurrent();
      if g >= 0 {
        var group := rc.groups[g];
        var d := FindSame(group.denials, deniedUsed, g, call);
        if d >= 0 {
          deniedUsed := deniedUsed + {(g as nat, d as nat)};
          return DeniedAs(group.denials[d].denyReason);
        }
        var c := FindSame(group.calls, authorized, g, call);
        if c >= 0 {
          authorized := authorized + {(g as nat, c as nat)};
          decisions := decisions + [Decided(g, call.id, call.name, Some(c), group.calls[c].Args(), false)];
          return Dispatch(group.calls[c].Args());
        }
      }
      if rc.idx < |rc.responses| {
        diverged := true;
        return Mismatch;
      }
      return RunLive(g);
    }

    /** `takeDecision`: the scan for the first pending decision that fits. */
    method FindDecision(g: nat, id: string, name: string, args: string) returns (m: int)
      ensures m == FirstFit(View(), g, id, name, args, 0)
    {
      for i := 0 to |decisions|
        invariant FirstFit(View(), g, id, name, args, i) == FirstFit(View(), g, id, name, args, 0)
      {
        var d := decisions[i];
        if d.done || d.g != g || d.id != id || d.name != name {
          continue;
        }
        if d.rec.Some? && g < |rc.groups| && d.rec.value < |rc.groups[g].calls| &&
          rc.groups[g].calls[d.rec.value].RanWith(args) {
          return i;
        }
        if d.rec.None? && d.args == args {
          return i;
        }
      }
      return -1;
    }

    /** `lookupCall`: the decision taken for the call, else its record, else live behind the record. */
    method Lookup(id: string, name: string, args: string) returns (found: Found)
      modifies this`decisions, this`diverged, rc`used
      ensures (found, View()) == LookupCall(old(View()), id, name, args)
    {
      hide CurrentGroup, FirstFit, CallById, CallFits;
      if diverged {
        return NotFound;
      }
      if id != "" && !liveActive {
        var g := rc.FindCurrent();
        if g >= 0 {
          var d := FindDecision(g, id, name, args);
          if d >= 0 {
            var rec := decisions[d].rec;
            decisions := decisions[d := decisions[d].(done := true)];
            if rec.None? {
              return FromLive;
            }
            rc.used := rc.used + {(g as nat, rec.value)};
            return FromRecord(rc.groups[g].calls[rec.value]);
          }
          var c := rc.FindCall(g, id, name, args);
          if c >= 0 {
            if !CallFits(rc.groups[g].calls[c], name, args) {
              diverged := true;
              return NotFound;
            }
            rc.used := rc.used + {(g as nat, c as nat)};
            return FromRecord(rc.groups[g].calls[c]);
          }
        }
      }
      if rc.idx < |rc.responses| {
        diverged := true;
        return NotFound;
      }
      return FromLive;
    }
  }
}
