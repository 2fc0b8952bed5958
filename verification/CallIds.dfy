/** Surrogate ids for tool calls a provider left unnamed (agent/runner.go:1027-1069). */
module CallIds {

  import opened Decimal
  import opened Chat

  function Surrogate(run: string, step: nat, index: nat, k: nat): (id: string)
    ensures id != ""
  {
    var base := "llmkit-" + run + "-s" + Itoa(step) + "-c" + Itoa(index);
    if k > 0 then base + ("-k" + Itoa(k)) else base
  }

  lemma SurrogatesDiffer(run: string, step: nat, index: nat, j: nat, k: nat)
    requires j < k
    ensures Surrogate(run, step, index, j) != Surrogate(run, step, index, k)
  {
    hide Itoa;
    var base := "llmkit-" + run + "-s" + Itoa(step) + "-c" + Itoa(index);
    var a := if j > 0 then "-k" + Itoa(j) else "";
    var b := "-k" + Itoa(k);
    assert Surrogate(run, step, index, j) == base + a;
    assert a != b by {
      if j > 0 {
        SuffixesDiffer(j, k);
      }
    }
    CancelPrefix(base, a, b);
  }

  lemma SuffixesDiffer(j: nat, k: nat)
    requires j != k
    ensures "-k" + Itoa(j) != "-k" + Itoa(k)
  {
    if Itoa(j) == Itoa(k) {
      DigitsInjective(j, k);
    }
    hide Itoa;
    CancelPrefix("-k", Itoa(j), Itoa(k));
  }

  lemma CancelPrefix(p: string, a: string, b: string)
    requires a != b
    ensures p + a != p + b
  {
    assert (p + a)[|p|..] == a && (p + b)[|p|..] == b;
  }

  /** Ids in use that the search could still meet from k on. */
  ghost function Blocking(run: string, step: nat, index: nat, used: set<string>, k: nat): set<string> {
    set id | id in used && exists j: nat :: j >= k && Surrogate(run, step, index, j) == id
  }

  lemma BlockingShrinks(run: string, step: nat, index: nat, used: set<string>, k: nat)
    requires Surrogate(run, step, index, k) in used
    ensures |Blocking(run, step, index, used, k + 1)| < |Blocking(run, step, index, used, k)|
  {
    hide Surrogate;
    var id := Surrogate(run, step, index, k);
    var now, next := Blocking(run, step, index, used, k), Blocking(run, step, index, used, k + 1);
    assert id in now;
    assert id !in next by {
      if id in next {
        var j: nat :| j >= k + 1 && Surrogate(run, step, index, j) == id;
        SurrogatesDiffer(run, step, index, k, j);
      }
    }
    assert next <= now - {id};
    SubsetSize(next, now - {id});
  }

  lemma {:induction false} SubsetSize(a: set<string>, b: set<string>)
    requires a <= b
    ensures |a| <= |b|
  {
    if a != {} {
      var x :| x in a;
      SubsetSize(a - {x}, b - {x});
    }
  }

  /** The first surrogate from k on that nothing uses. */
  function FreshId(run: string, step: nat, index: nat, used: set<string>, k: nat): (id: string)
    ensures id !in used && id != ""
    decreases |Blocking(run, step, index, used, k)|
  {
    var id := Surrogate(run, step, index, k);
    if id !in used then id
    else
      BlockingShrinks(run, step, index, used, k);
      FreshId(run, step, index, used, k + 1)
  }

  function UsedIds(msgs: seq<Message>): set<string> {
    set i, j | 0 <= i < |msgs| && 0 <= j < |msgs[i].toolCalls| &&
      msgs[i].toolCalls[j].id != "" :: msgs[i].toolCalls[j].id
  }

  function NamedIds(calls: seq<ToolCall>): set<string> {
    set j | 0 <= j < |calls| && calls[j].id != "" :: calls[j].id
  }

  /** The first n calls with their empty ids filled, and the ids then in use. */
  function FillTo(run: string, step: nat, used: set<string>, calls: seq<ToolCall>,
                  n: nat): (r: (seq<ToolCall>, set<string>))
    requires n <= |calls|
    ensures |r.0| == n && used <= r.1
  {
    if n == 0 then ([], used)
    else
      var (done, taken) := FillTo(run, step, used, calls, n - 1);
      var c := calls[n - 1];
      if c.id != "" then (done + [c], taken)
      else
        var id := FreshId(run, step, n - 1, taken, 0);
        (done + [c.(id := id)], taken + {id})
  }

  function Filled(run: string, step: nat, history: seq<Message>, calls: seq<ToolCall>): (r: seq<ToolCall>)
    ensures |r| == |calls|
  {
    FillTo(run, step, UsedIds(history) + NamedIds(calls), calls, |calls|).0
  }

  method FindFreshId(run: string, step: nat, index: nat, used: set<string>) returns (id: string)
    ensures id == FreshId(run, step, index, used, 0)
  {
    hide FreshId, Surrogate;
    var k := 0;
    id := Surrogate(run, step, index, k);
    while id in used
      invariant k >= 0 && id == Surrogate(run, step, index, k)
      invariant FreshId(run, step, index, used, 0) == FreshId(run, step, index, used, k)
      decreases |Blocking(run, step, index, used, k)|
    {
      BlockingShrinks(run, step, index, used, k);
      FreshIdStep(run, step, index, used, k);
      k := k + 1;
      id := Surrogate(run, step, index, k);
    }
    FreshIdStep(run, step, index, used, k);
  }

  /** `fillEmptyCallIDs`: no copy is made when every id is set. */
  method FillEmptyCallIds(run: string, step: nat, history: seq<Message>,
                          calls: seq<ToolCall>) returns (r: seq<ToolCall>)
    ensures r == Filled(run, step, history, calls)
  {
    hide FreshId, UsedIds, NamedIds, FillTo;
    var used := UsedIds(history) + NamedIds(calls);
    if forall i :: 0 <= i < |calls| ==> calls[i].id != "" {
      NothingToFill(run, step, used, calls, |calls|);
      assert calls[..|calls|] == calls;
      return calls;
    }
    r := calls;
    FillNone(run, step, used, calls);
    ghost var start := used;
    for i := 0 to |calls|
      invariant |r| == |calls|
      invariant forall j :: 0 <= j < i ==> r[j] == FillTo(run, step, start, calls, i).0[j]
      invariant forall j :: i <= j < |calls| ==> r[j] == calls[j]
      invariant used == FillTo(run, step, start, calls, i).1
    {
      FillStep(run, step, start, calls, i);
      if r[i].id == "" {
        var id := FindFreshId(run, step, i, used);
        used := used + {id};
        r := r[i := r[i].(id := id)];
      }
    }
  }

  lemma FillNone(run: string, step: nat, used: set<string>, calls: seq<ToolCall>)
    ensures FillTo(run, step, used, calls, 0) == ([], used)
  {
  }

  lemma FillStep(run: string, step: nat, used: set<string>, calls: seq<ToolCall>, n: nat)
    requires n < |calls|
    ensures var before, after := FillTo(run, step, used, calls, n), FillTo(run, step, used, calls, n + 1);
            if calls[n].id != "" then after == (before.0 + [calls[n]], before.1)
            else var id := FreshId(run, step, n, before.1, 0);
                 after == (before.0 + [calls[n].(id := id)], before.1 + {id})
  {
    hide FreshId;
  }

  lemma FreshIdStep(run: string, step: nat, index: nat, used: set<string>, k: nat)
    ensures FreshId(run, step, index, used, k)
         == if Surrogate(run, step, index, k) in used then FreshId(run, step, index, used, k + 1)
            else Surrogate(run, step, index, k)
  {
    hide Surrogate, Blocking;
  }

  lemma {:induction false} NothingToFill(run: string, step: nat, used: set<string>, calls: seq<ToolCall>, n: nat)
    requires n <= |calls| && forall i :: 0 <= i < |calls| ==> calls[i].id != ""
    ensures FillTo(run, step, used, calls, n).0 == calls[..n]
  {
    hide FreshId;
    if n > 0 {
      NothingToFill(run, step, used, calls, n - 1);
    }
  }

  /** Filling names every call, keeps the ids the provider set, and gives each surrogate an id no call of
      the history and no other call of the response has. */
  lemma {:induction false} FilledIsFresh(run: string, step: nat, used: set<string>, calls: seq<ToolCall>, n: nat)
    requires n <= |calls| && NamedIds(calls) <= used
    ensures var r := FillTo(run, step, used, calls, n).0;
            && (forall i :: 0 <= i < n ==> r[i].id != "" && r[i].name == calls[i].name && r[i].args == calls[i].args)
            && (forall i :: 0 <= i < n && calls[i].id != "" ==> r[i] == calls[i])
            && (forall i :: 0 <= i < n && calls[i].id == "" ==> r[i].id !in used)
            && (forall i, j :: 0 <= i < j < n && (calls[i].id == "" || calls[j].id == "") ==> r[i].id != r[j].id)
            && (forall i :: 0 <= i < n ==> r[i].id in FillTo(run, step, used, calls, n).1)
  {
    hide FreshId;
    if n > 0 {
      FilledIsFresh(run, step, used, calls, n - 1);
      var c := calls[n - 1];
      assert c.id != "" ==> c.id in NamedIds(calls);
    }
  }

  /** Every id is set after filling. */
  lemma FilledIdsAreSet(run: string, step: nat, history: seq<Message>, calls: seq<ToolCall>)
    ensures forall i :: 0 <= i < |calls| ==> Filled(run, step, history, calls)[i].id != ""
    ensures (forall i :: 0 <= i < |calls| ==> calls[i].id != "") ==> Filled(run, step, history, calls) == calls
  {
    hide FillTo;
    var used := UsedIds(history) + NamedIds(calls);
    FilledIsFresh(run, step, used, calls, |calls|);
    if forall i :: 0 <= i < |calls| ==> calls[i].id != "" {
      NothingToFill(run, step, used, calls, |calls|);
      assert calls[..|calls|] == calls;
    }
  }
}
