/** One replayed tool turn: whatever order its calls are dispatched in, each is served its own record. */
module ReplayTools {

  import opened Chat
  import opened Record
  import opened ReplayClient
  import opened Worlds

  predicate DistinctIds(calls: seq<ToolCall>) {
    forall i, j :: 0 <= i < j < |calls| ==> calls[i].id != calls[j].id
  }

  predicate DistinctRunIds(runs: seq<RunRecord>) {
    forall i, j :: 0 <= i < j < |runs| ==> runs[i].call.id != runs[j].call.id
  }

  /** Groups lo..hi belong to other responses and are fully served. */
  ghost predicate LeftBehind(rc: Replay, lo: nat, hi: nat) {
    hi <= |rc.groups| &&
    forall g: nat :: lo <= g < hi ==>
      rc.groups[g].resp != rc.idx - 1 && forall i: nat :: i < |rc.groups[g].calls| ==> (g, i) in rc.used
  }

  lemma {:induction false} CallByIdFinds(rc: Replay, id: string, name: string, args: string, m: nat, i: nat)
    requires rc.gi < |rc.groups| && i <= m < |rc.groups[rc.gi].calls|
    requires DistinctRunIds(rc.groups[rc.gi].calls)
    requires rc.groups[rc.gi].calls[m].call.id == id && Unused(rc, rc.gi, m) &&
             CallFits(rc.groups[rc.gi].calls[m], name, args)
    ensures CallById(rc, id, name, args, i, -1) == m
    decreases m - i
  {
    hide CallFits;
    if i < m {
      CallByIdFinds(rc, id, name, args, m, i + 1);
    }
  }

  /** Serving the call with record m of group k: groups left behind are skipped, the record is marked used. */
  lemma {:induction false} ServeOne(rc: Replay, k: nat, m: nat, id: string, name: string, args: string)
    requires id != "" && rc.gi <= k < |rc.groups| && LeftBehind(rc, rc.gi, k)
    requires rc.groups[k].resp == rc.idx - 1 && DistinctRunIds(rc.groups[k].calls)
    requires m < |rc.groups[k].calls| && (k, m) !in rc.used
    requires rc.groups[k].calls[m].call.id == id && CallFits(rc.groups[k].calls[m], name, args)
    ensures ServeCall(rc, id, name, args) ==
              (ServedCall(rc.groups[k].calls[m]), rc.(gi := k, used := rc.used + {(k, m)}))
    decreases k - rc.gi
  {
    hide CallFits, CallById, DistinctRunIds;
    if rc.gi < k {
      var g := rc.groups[rc.gi];
      assert forall i: nat :: i < |g.calls| ==> !Unused(rc, rc.gi, i);
      ServeOne(rc.(gi := rc.gi + 1), k, m, id, name, args);
    } else {
      CallByIdFinds(rc, id, name, args, m, 0);
    }
  }

  /** The call is one a replay tool must serve. */
  predicate Dispatched(rc: Replay, call: ToolCall, d: Decision) {
    d.Go? && Registers(rc, call.name)
  }

  /** The record of a dispatched call sits in group k. */
  predicate Filed(rc: Replay, k: nat, call: ToolCall, d: Decision, rec: RunRecord)
    requires d.Go?
  {
    k < |rc.groups| && rec in rc.groups[k].calls && rec.call == call && CallFits(rec, call.name, d.args)
  }

  /** A replay client about to run the calls of one turn, filed as group k. */
  ghost predicate TurnOpen(rc: Replay, k: nat, calls: seq<ToolCall>, ds: seq<Decision>, recs: seq<RunRecord>) {
    && |calls| == |ds| == |recs|
    && (forall c | c in calls :: c.id != "") && DistinctIds(calls)
    && k <= |rc.groups| && rc.gi <= k && LeftBehind(rc, rc.gi, k)
    && (k < |rc.groups| && rc.groups[k].resp == rc.idx - 1 ==>
          DistinctRunIds(rc.groups[k].calls) && forall m: nat :: m < |rc.groups[k].calls| ==> (k, m) !in rc.used)
    && (forall i :: 0 <= i < |calls| && Dispatched(rc, calls[i], ds[i]) ==>
          Filed(rc, k, calls[i], ds[i], recs[i]) && rc.groups[k].resp == rc.idx - 1)
  }

  /** What the i-th call of the turn must give. */
  function Expected(rc: Replay, call: ToolCall, d: Decision, rec: RunRecord, accepts: bool): ToolRes {
    if d.Resolved? then d.res
    else if !Registers(rc, call.name) then UnknownTool(call.name).(dispatchedArgs := Rewritten(d))
    else ServedRes(rec, accepts)
  }

  /** rc' is rc after the calls of group k with the given ids were served. */
  ghost predicate MidTurn(rc': Replay, rc: Replay, k: nat, ids: set<string>) {
    && rc' == rc.(gi := rc'.gi, used := rc'.used)
    && rc.gi <= rc'.gi <= k
    && forall g: nat, m: nat :: (g, m) in rc'.used <==>
         (g, m) in rc.used || (g == k && k < |rc.groups| && m < |rc.groups[k].calls| &&
                               rc.groups[k].calls[m].call.id in ids)
  }

  lemma RegistersKept(rc: Replay, rc': Replay, name: string)
    requires rc'.groups == rc.groups
    ensures Registers(rc', name) == Registers(rc, name)
  {
    hide GroupNames;
  }

  /** One more call of the turn: served exactly its record. */
  lemma ServeNext(w: World, rc: Replay, k: nat, ids: set<string>, call: ToolCall, d: Decision, rec: RunRecord,
                  accepts: bool, max: int)
    requires w.Replaying? && MidTurn(w.rc, rc, k, ids) && d.Go? && call.id != "" && call.id !in ids
    requires k <= |rc.groups| && LeftBehind(rc, rc.gi, k)
    requires Registers(rc, call.name) ==>
               && Filed(rc, k, call, d, rec) && rc.groups[k].resp == rc.idx - 1 && DistinctRunIds(rc.groups[k].calls)
               && (forall m: nat :: m < |rc.groups[k].calls| ==> (k, m) !in rc.used)
    ensures var (res, w') := RunCall(w, call, d, accepts, max);
            && res == Expected(rc, call, d, rec, accepts)
            && w'.Replaying? && w' == w.(rc := w'.rc)
            && MidTurn(w'.rc, rc, k, if Registers(rc, call.name) then ids + {call.id} else ids)
  {
    hide Registers, ServedRes, DistinctRunIds, CallFits, ServeCall;
    RegistersKept(rc, w.rc, call.name);
    if Registers(rc, call.name) {
      var m: nat :| m < |rc.groups[k].calls| && rc.groups[k].calls[m] == rec;
      assert LeftBehind(w.rc, w.rc.gi, k);
      ServeOne(w.rc, k, m, call.id, call.name, d.args);
      MarkOne(w.rc, rc, k, ids, m, call.id);
    }
  }

  lemma MarkOne(rc': Replay, rc: Replay, k: nat, ids: set<string>, m: nat, id: string)
    requires MidTurn(rc', rc, k, ids) && k < |rc.groups| && m < |rc.groups[k].calls| &&
             rc.groups[k].calls[m].call.id == id
    requires DistinctRunIds(rc.groups[k].calls)
    ensures MidTurn(rc'.(gi := k, used := rc'.used + {(k, m)}), rc, k, ids + {id})
  {
    var calls := rc.groups[k].calls;
    var next := rc'.(gi := k, used := rc'.used + {(k, m)});
    forall g: nat, n: nat
      ensures (g, n) in next.used <==>
                (g, n) in rc.used || (g == k && n < |calls| && calls[n].call.id in ids + {id})
    {
      if g == k && n < |calls| && n != m {
        assert calls[n].call.id != id by {
          if n < m {
            assert calls[n].call.id != calls[m].call.id;
          } else {
            assert calls[m].call.id != calls[n].call.id;
          }
        }
      }
    }
  }

  /** The ids the first calls of an order have served. */
  function ServedIds(rc: Replay, calls: seq<ToolCall>, ds: seq<Decision>, order: seq<nat>): set<string>
    requires |calls| == |ds| && forall j :: 0 <= j < |order| ==> order[j] < |calls|
  {
    set j | 0 <= j < |order| && Dispatched(rc, calls[order[j]], ds[order[j]]) :: calls[order[j]].id
  }

  lemma ServedIdsSnoc(rc: Replay, calls: seq<ToolCall>, ds: seq<Decision>, order: seq<nat>)
    requires |calls| == |ds| && order != [] && forall j :: 0 <= j < |order| ==> order[j] < |calls|
    ensures var n := |order| - 1; var i := order[n];
            ServedIds(rc, calls, ds, order) ==
              ServedIds(rc, calls, ds, order[..n]) + (if Dispatched(rc, calls[i], ds[i]) then {calls[i].id} else {})
  {
    hide Dispatched;
    var n := |order| - 1;
    var prefix := order[..n];
    assert forall j :: 0 <= j < n ==> prefix[j] == order[j];
  }

  lemma NotServedYet(rc: Replay, calls: seq<ToolCall>, ds: seq<Decision>, order: seq<nat>)
    requires |calls| == |ds| && order != [] && (forall j :: 0 <= j < |order| ==> order[j] < |calls|)
    requires DistinctIds(calls) && forall i, j :: 0 <= i < j < |order| ==> order[i] != order[j]
    ensures calls[order[|order| - 1]].id !in ServedIds(rc, calls, ds, order[..|order| - 1])
  {
    hide Dispatched;
    var n := |order| - 1;
    forall j | 0 <= j < n ensures calls[order[..n][j]].id != calls[order[n]].id {
      assert order[j] != order[n];
      if order[j] < order[n] {
        assert calls[order[j]].id != calls[order[n]].id;
      } else {
        assert calls[order[n]].id != calls[order[j]].id;
      }
    }
  }

  /** Confluence: after any prefix of any dispatch order, every dispatched call has its own recorded
      result and exactly their records are used. */
  lemma {:induction false} AnyOrderServes(w: World, calls: seq<ToolCall>, ds: seq<Decision>, recs: seq<RunRecord>,
                                          k: nat,
                                          accepts: bool, max: int, order: seq<nat>)
    requires w.Replaying? && TurnOpen(w.rc, k, calls, ds, recs)
    requires forall j :: 0 <= j < |order| ==> order[j] < |calls|
    requires forall i, j :: 0 <= i < j < |order| ==> order[i] != order[j]
    ensures var (rs, w') := Parallel(w, calls, ds, accepts, max, order);
            && w'.Replaying? && w' == w.(rc := w'.rc)
            && MidTurn(w'.rc, w.rc, k, ServedIds(w.rc, calls, ds, order))
            && forall j :: 0 <= j < |order| ==>
               rs[order[j]] == Expected(w.rc, calls[order[j]], ds[order[j]], recs[order[j]], accepts)
    decreases |order|
  {
    hide Registers, RunCall, ServedRes, CallFits, DistinctIds, LeftBehind, UnknownTool;
    if order != [] {
      var n := |order| - 1;
      var i := order[n];
      var prefix := order[..n];
      assert forall j :: 0 <= j < n ==> prefix[j] == order[j];
      AnyOrderServes(w, calls, ds, recs, k, accepts, max, prefix);
      var (rs, w1) := Parallel(w, calls, ds, accepts, max, prefix);
      ServedIdsSnoc(w.rc, calls, ds, order);
      if ds[i].Go? {
        NotServedYet(w.rc, calls, ds, order);
        ServeNext(w1, w.rc, k, ServedIds(w.rc, calls, ds, prefix), calls[i], ds[i], recs[i], accepts, max);
      }
      LastSlot(w, calls, ds, recs, accepts, max, order);
    } else {
      assert MidTurn(w.rc, w.rc, k, {});
    }
  }

  /** The last call of an order writes its own slot and leaves the others. */
  lemma LastSlot(w: World, calls: seq<ToolCall>, ds: seq<Decision>, recs: seq<RunRecord>, accepts: bool, max: int,
                 order: seq<nat>)
    requires |calls| == |ds| == |recs| && (forall c | c in calls :: c.id != "")
    requires order != [] && forall j :: 0 <= j < |order| ==> order[j] < |calls|
    requires forall i, j :: 0 <= i < j < |order| ==> order[i] != order[j]
    ensures var n := |order| - 1; var i := order[n];
            var (rs0, w1) := Parallel(w, calls, ds, accepts, max, order[..n]);
            var (rs, w') := Parallel(w, calls, ds, accepts, max, order);
            && (forall j :: 0 <= j < n ==> rs[order[j]] == rs0[order[j]])
            && (ds[i].Resolved? ==> rs[i] == ds[i].res && w' == w1)
            && (ds[i].Go? ==> (rs[i], w') == RunCall(w1, calls[i], ds[i], accepts, max))
  {
    hide RunCall;
  }
}
