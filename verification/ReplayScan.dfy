/** How the replay client reads a record that is still being written: what it has read of a prefix
    stays as it is, and the tool turns of the whole record split at any completed turn. */
module ReplayScan {

  import opened Summaries
  import opened Record
  import opened ReplayClient

  predicate IsPurpose(ev: Event) {
    ev.Completion? && ev.purpose
  }

  lemma ScanSnoc(l: seq<Event>, e: Event)
    ensures Scan(l + [e]) == ScanEvent(Scan(l), e)
  {
    hide ScanEvent;
    assert (l + [e])[..|l|] == l;
  }

  /** Reading on never changes what was read. */
  predicate ReadMore(a: Scanned, b: Scanned) {
    a.responses <= b.responses && a.runs <= b.runs && a.summaries <= b.summaries
  }

  lemma ScanEventReads(s: Scanned, e: Event)
    ensures ReadMore(s, ScanEvent(s, e))
    ensures !IsPurpose(e) ==> ReadMore(Flush(s), ScanEvent(s, e)) && ScanEvent(s, e).open == []
  {
  }

  lemma {:induction false} ScanPrefix(l: seq<Event>, r: seq<Event>)
    requires l <= r
    ensures ReadMore(Scan(l), Scan(r))
    ensures |l| < |r| && !IsPurpose(r[|l|]) ==> ReadMore(Flush(Scan(l)), Scan(r))
  {
    hide ScanEvent, Flush;
    if |l| == |r| {
      assert l == r;
    } else {
      var n := |r| - 1;
      ScanEventReads(Scan(r[..n]), r[n]);
      ScanPrefix(l, r[..n]);
      if n == |l| {
        assert r[..n] == l;
      } else {
        assert r[..n][|l|] == r[|l|];
      }
    }
  }

  /** A recorded summary is the group of purpose calls that follows, once something else follows it. */
  lemma {:induction false} ScanPurposes(l: seq<Event>, calls: seq<Reply>, evs: seq<Event>)
    requires |evs| == |calls| && forall i :: 0 <= i < |evs| ==> IsPurpose(evs[i]) && evs[i].reply == calls[i]
    ensures Scan(l + evs) == Scan(l).(open := Scan(l).open + calls)
  {
    hide Scan, Flush;
    if evs == [] {
      assert l + evs == l;
      assert Scan(l).open + calls == Scan(l).open;
    } else {
      var n := |evs| - 1;
      ScanPurposes(l, calls[..n], evs[..n]);
      assert l + evs == (l + evs[..n]) + [evs[n]];
      ScanSnoc(l + evs[..n], evs[n]);
      assert Scan(l).open + calls[..n] + [calls[n]] == Scan(l).open + calls;
    }
  }

  // ----- Runs -----

  /** A tool turn is over when the record holds one of its calls. */
  predicate Done(runs: seq<RunAt>, resp: int) {
    exists i :: 0 <= i < |runs| && runs[i].resp == resp
  }

  /** Every run read so far belongs to a response read so far. */
  lemma {:induction false} RunsFollowResponses(l: seq<Event>)
    ensures forall i :: 0 <= i < |Scan(l).runs| ==> Scan(l).runs[i].resp < |Scan(l).responses|
  {
    if l != [] {
      RunsFollowResponses(l[..|l| - 1]);
    }
  }

  // ----- Groups -----

  /** Every group files runs of one step and response, of names the record registered. */
  predicate GroupFrom(o: seq<string>, all: seq<RunAt>, runs: seq<RunAt>, g: Group) {
    exists i :: 0 <= i < |runs| && runs[i].step == g.step && runs[i].resp == g.resp
                && !Unregistered(o, all, runs[i].run.call.name)
  }

  lemma {:induction false} GroupsAreRuns(o: seq<string>, all: seq<RunAt>, runs: seq<RunAt>)
    ensures forall g :: 0 <= g < |Groups(o, all, runs)| ==> GroupFrom(o, all, runs, Groups(o, all, runs)[g])
  {
    hide Unregistered;
    if runs != [] {
      var n := |runs| - 1;
      var prev := Groups(o, all, runs[..n]);
      var gs := Groups(o, all, runs);
      GroupsAreRuns(o, all, runs[..n]);
      forall g | 0 <= g < |gs| ensures GroupFrom(o, all, runs, gs[g]) {
        if g < |prev| {
          assert GroupFrom(o, all, runs[..n], prev[g]);
          var i :| 0 <= i < n && runs[..n][i].step == prev[g].step && runs[..n][i].resp == prev[g].resp
                   && !Unregistered(o, all, runs[..n][i].run.call.name);
          assert runs[i] == runs[..n][i];
        } else {
          assert runs[n].step == gs[g].step && runs[n].resp == gs[g].resp;
        }
      }
    }
  }

  lemma AddRunAfter(a: seq<Group>, b: seq<Group>, r: RunAt)
    requires b != [] || !Joins(a, r.step)
    ensures AddRun(a + b, r) == a + AddRun(b, r)
  {
    if b == [] {
      assert a + b == a;
    }
  }

  /** Turns of different steps are filed apart. */
  lemma {:induction false} GroupsConcat(o: seq<string>, all: seq<RunAt>, x: seq<RunAt>, y: seq<RunAt>)
    requires forall i, j :: 0 <= i < |x| && 0 <= j < |y| ==> x[i].step != y[j].step
    ensures Groups(o, all, x + y) == Groups(o, all, x) + Groups(o, all, y)
  {
    hide Unregistered, AddRun;
    if y == [] {
      assert x + y == x;
      assert Groups(o, all, x) + [] == Groups(o, all, x);
    } else {
      var n := |y| - 1;
      GroupsConcat(o, all, x, y[..n]);
      assert (x + y)[..|x + y| - 1] == x + y[..n];
      LastStepIsARun(o, all, x, y[n].step);
      AddRunAfter(Groups(o, all, x), Groups(o, all, y[..n]), y[n]);
    }
  }

  lemma LastStepIsARun(o: seq<string>, all: seq<RunAt>, x: seq<RunAt>, step: nat)
    requires forall i :: 0 <= i < |x| ==> x[i].step != step
    ensures !Joins(Groups(o, all, x), step)
  {
    hide Unregistered, Groups;
    var gs := Groups(o, all, x);
    GroupsAreRuns(o, all, x);
    if gs != [] {
      assert GroupFrom(o, all, x, gs[|gs| - 1]);
    }
  }

  predicate OneTurn(t: seq<RunAt>, step: nat, resp: int) {
    forall i :: 0 <= i < |t| ==> t[i].step == step && t[i].resp == resp
  }

  /** The calls a turn's tools must serve. */
  function ServedCalls(o: seq<string>, all: seq<RunAt>, t: seq<RunAt>): seq<RunRecord> {
    if t == [] then []
    else
      var r := t[|t| - 1].run;
      ServedCalls(o, all, t[..|t| - 1]) + if Unregistered(o, all, r.call.name) || r.denied then [] else [r]
  }

  function DeniedCalls(o: seq<string>, all: seq<RunAt>, t: seq<RunAt>): seq<RunRecord> {
    if t == [] then []
    else
      var r := t[|t| - 1].run;
      DeniedCalls(o, all, t[..|t| - 1]) + if Unregistered(o, all, r.call.name) || !r.denied then [] else [r]
  }

  /** A turn is one group, or none when no call of it was registered. */
  lemma {:induction false} GroupOfTurn(o: seq<string>, all: seq<RunAt>, t: seq<RunAt>, step: nat, resp: int)
    requires OneTurn(t, step, resp)
    ensures Groups(o, all, t) ==
              if ServedCalls(o, all, t) == [] && DeniedCalls(o, all, t) == [] then []
              else [Group(step, resp, ServedCalls(o, all, t), DeniedCalls(o, all, t))]
  {
    hide Unregistered;
    if t != [] {
      var n := |t| - 1;
      var r := t[n];
      var s, d := ServedCalls(o, all, t[..n]), DeniedCalls(o, all, t[..n]);
      GroupOfTurn(o, all, t[..n], step, resp);
      assert s + [] == s && d + [] == d;
      if !Unregistered(o, all, r.run.call.name) {
        var gs := Groups(o, all, t[..n]);
        assert r.step == step && r.resp == resp;
        if gs == [] {
          assert s == [] && d == [];
          assert [] + [r.run] == [r.run];
        }
        assert AddRun(gs, r) == [Group(step, resp, ServedCalls(o, all, t), DeniedCalls(o, all, t))];
      }
    }
  }

  /** A registered run of the turn, denied or not as asked. */
  predicate IsRunOf(o: seq<string>, all: seq<RunAt>, t: seq<RunAt>, run: RunRecord, denied: bool) {
    exists i :: 0 <= i < |t| && t[i].run == run && run.denied == denied && !Unregistered(o, all, run.call.name)
  }

  lemma RunOfLonger(o: seq<string>, all: seq<RunAt>, t: seq<RunAt>, run: RunRecord, denied: bool)
    requires t != [] && IsRunOf(o, all, t[..|t| - 1], run, denied)
    ensures IsRunOf(o, all, t, run, denied)
  {
    hide Unregistered;
    var n := |t| - 1;
    var i :| 0 <= i < n && t[..n][i].run == run && run.denied == denied && !Unregistered(o, all, run.call.name);
    assert t[i] == t[..n][i];
  }

  /** A turn's filed calls are its registered runs: served when a tool ran them, denied otherwise. */
  lemma {:induction false} FiledAreRuns(o: seq<string>, all: seq<RunAt>, t: seq<RunAt>)
    ensures forall run :: run in ServedCalls(o, all, t) ==> IsRunOf(o, all, t, run, false)
    ensures forall run :: run in DeniedCalls(o, all, t) ==> IsRunOf(o, all, t, run, true)
  {
    hide Unregistered, IsRunOf;
    if t != [] {
      var n := |t| - 1;
      FiledAreRuns(o, all, t[..n]);
      forall run | run in ServedCalls(o, all, t) ensures IsRunOf(o, all, t, run, false) {
        if run in ServedCalls(o, all, t[..n]) {
          RunOfLonger(o, all, t, run, false);
        } else {
          LastIsRunOf(o, all, t);
        }
      }
      forall run | run in DeniedCalls(o, all, t) ensures IsRunOf(o, all, t, run, true) {
        if run in DeniedCalls(o, all, t[..n]) {
          RunOfLonger(o, all, t, run, true);
        } else {
          LastIsRunOf(o, all, t);
        }
      }
    }
  }

  lemma LastIsRunOf(o: seq<string>, all: seq<RunAt>, t: seq<RunAt>)
    requires t != []
    ensures var run := t[|t| - 1].run; !Unregistered(o, all, run.call.name) ==> IsRunOf(o, all, t, run, run.denied)
  {
    hide Unregistered;
  }

  lemma {:induction false} RunsAreFiled(o: seq<string>, all: seq<RunAt>, t: seq<RunAt>)
    ensures forall i :: 0 <= i < |t| && !Unregistered(o, all, t[i].run.call.name) ==>
              t[i].run in (if t[i].run.denied then DeniedCalls(o, all, t) else ServedCalls(o, all, t))
  {
    hide Unregistered;
    if t != [] {
      var n := |t| - 1;
      RunsAreFiled(o, all, t[..n]);
      forall i | 0 <= i < |t| && !Unregistered(o, all, t[i].run.call.name)
        ensures t[i].run in (if t[i].run.denied then DeniedCalls(o, all, t) else ServedCalls(o, all, t))
      {
        if i < n {
          assert t[..n][i] == t[i];
        }
      }
    }
  }
}
