/** The operating system the kill walk runs in: processes fork, exit, are reaped, their pids are reused, and
    they are stopped and continued, in any order and at any moment. A process is named by its place in `procs`,
    which it keeps for its whole life, as a pidfd does; its pid is free again once it is reaped. */
module Processes {

  datatype Life = Running | Stopped | Zombie | Reaped

  /** `maker` forked it; `parent` is who would reap it now. */
  datatype Process = Process(pid: nat, maker: nat, parent: nat, life: Life) {
    predicate Alive() { life.Running? || life.Stopped? }
  }

  type Procs = seq<Process>

  datatype Step = Fork(maker: nat, pid: nat) | Exit(id: nat,
                                                    heir: nat) | Reap(id: nat) | Stop(id: nat) | Continue(id: nat)

  const INIT: nat := 0

  /** The process that owns a pid: at most one, since a pid is taken until its process is reaped. */
  predicate Owns(ps: Procs, id: nat, pid: nat) {
    id < |ps| && ps[id].pid == pid && !ps[id].life.Reaped?
  }

  predicate Taken(ps: Procs, pid: nat) {
    exists id :: 0 <= id < |ps| && Owns(ps, id, pid)
  }

  /** c is a or was forked by it, by a child of it, and so on. */
  predicate Descends(ps: Procs, c: nat, a: nat)
    decreases c
  {
    c == a || (c < |ps| && ps[c].maker < c && Descends(ps, ps[c].maker, a))
  }

  /** What holds of every reachable system. */
  ghost predicate Sane(ps: Procs, pids: nat) {
    && ps != [] && ps[INIT].Alive()
    && (forall i, j :: 0 <= i < |ps| && 0 <= j < |ps| && Owns(ps, i, ps[j].pid) && Owns(ps, j, ps[j].pid) ==> i == j)
    && (forall i :: 0 <= i < |ps| ==> ps[i].pid < pids && SaneAt(ps, i))
  }

  /** Its maker came before it, and its parent is alive and is one of those it descends from. */
  predicate SaneAt(ps: Procs, i: nat)
    requires i < |ps|
  {
    && (i != INIT ==> ps[i].maker < i)
    && ps[i].parent < |ps| && Descends(ps, i, ps[i].parent)
    && (!ps[i].life.Reaped? ==> ps[ps[i].parent].Alive())
  }

  function WithLife(ps: Procs, id: nat, life: Life): (r: Procs)
    requires id < |ps|
    ensures |r| == |ps|
  {
    ps[id := ps[id].(life := life)]
  }

  /** The children of a process that exits go to a living forebear of it, or to init. */
  function Orphaned(ps: Procs, id: nat, heir: nat): (r: Procs)
    requires id < |ps|
    ensures |r| == |ps|
  {
    var to := if heir < |ps| && heir != id && ps[heir].Alive() && Descends(ps, id, heir) then heir else INIT;
    seq(|ps|, i requires 0 <= i < |ps| => if ps[i].parent == id then ps[i].(parent := to) else ps[i])
  }

  function Exited(ps: Procs, id: nat, heir: nat): (r: Procs)
    requires id < |ps|
    ensures |r| == |ps|
  {
    WithLife(Orphaned(ps, id, heir), id, Zombie)
  }

  /** One step; a step that cannot be taken changes nothing. */
  function Do(ps: Procs, pids: nat, step: Step): Procs {
    match step
    case Fork(maker, pid) =>
      if maker < |ps| && ps[maker].life.Running? && pid < pids &&
        !Taken(ps, pid) then ps + [Process(pid, maker, maker, Running)] else ps
    case Exit(id, heir) => if INIT < id < |ps| && ps[id].Alive() then Exited(ps, id, heir) else ps
    case Reap(id) => if id < |ps| && ps[id].life.Zombie? then WithLife(ps, id, Reaped) else ps
    case Stop(id) => if INIT < id < |ps| && ps[id].life.Running? then WithLife(ps, id, Stopped) else ps
    case Continue(id) => if id < |ps| && ps[id].life.Stopped? then WithLife(ps, id, Running) else ps
  }

  function DoAll(ps: Procs, pids: nat, steps: seq<Step>): Procs
    decreases |steps|
  {
    if steps == [] then ps else DoAll(Do(ps, pids, steps[0]), pids, steps[1..])
  }

  // ----- What every step keeps -----

  /** Processes are never forgotten, keep pid and maker, and death is for good. */
  ghost predicate Later(a: Procs, b: Procs) {
    && |a| <= |b|
    && forall i :: 0 <= i < |a| ==>
         && b[i].pid == a[i].pid && b[i].maker == a[i].maker
         && (b[i].Alive() ==> a[i].Alive()) && (a[i].life.Reaped? ==> b[i].life.Reaped?)
  }

  lemma LaterTransitive(a: Procs, b: Procs, c: Procs)
    requires Later(a, b) && Later(b, c)
    ensures Later(a, c)
  {
  }

  lemma {:induction false} DescendsStays(a: Procs, b: Procs, c: nat, r: nat)
    requires Later(a, b) && Descends(a, c, r)
    ensures Descends(b, c, r)
    decreases c
  {
    if c != r {
      DescendsStays(a, b, a[c].maker, r);
    }
  }

  lemma {:induction false} DescendsTransitive(ps: Procs, c: nat, b: nat, a: nat)
    requires Descends(ps, c, b) && Descends(ps, b, a)
    ensures Descends(ps, c, a)
    decreases c
  {
    if c != b {
      DescendsTransitive(ps, ps[c].maker, b, a);
    }
  }

  lemma {:induction false} AllDescendFromInit(ps: Procs, pids: nat, c: nat)
    requires Sane(ps, pids) && c < |ps|
    ensures Descends(ps, c, INIT)
    decreases c
  {
    if c != INIT {
      assert SaneAt(ps, c);
      AllDescendFromInit(ps, pids, ps[c].maker);
    }
  }

  lemma WithLifeIsSane(ps: Procs, pids: nat, id: nat, life: Life)
    requires Sane(ps, pids) && id < |ps|
    requires ps[id].life.Reaped? ==> life.Reaped?
    requires ps[id].Alive() ==> life.Running? || life.Stopped?
    requires !ps[id].Alive() ==> life.Zombie? || life.Reaped?
    ensures Sane(WithLife(ps, id, life), pids) && Later(ps, WithLife(ps, id, life))
  {
    hide Descends;
    var qs := WithLife(ps, id, life);
    assert Later(ps, qs);
    forall i | 0 <= i < |qs| ensures SaneAt(qs, i) {
      assert SaneAt(ps, i);
      DescendsStays(ps, qs, i, ps[i].parent);
    }
    OwnersStay(ps, qs);
  }

  /** Pids stay unique while no process appears and none comes back. */
  lemma OwnersStay(ps: Procs, qs: Procs)
    requires |ps| == |qs| && Later(ps, qs)
    requires forall i, j :: 0 <= i < |ps| && 0 <= j < |ps| && Owns(ps, i, ps[j].pid) && Owns(ps, j, ps[j].pid) ==>
             i == j
    ensures forall i, j :: 0 <= i < |qs| && 0 <= j < |qs| && Owns(qs, i, qs[j].pid) && Owns(qs, j, qs[j].pid) ==> i == j
  {
    forall i, j | 0 <= i < |qs| && 0 <= j < |qs| && Owns(qs, i, qs[j].pid) && Owns(qs, j, qs[j].pid) ensures i == j {
      assert Owns(ps, i, ps[j].pid) && Owns(ps, j, ps[j].pid);
    }
  }

  lemma ExitedIsSane(ps: Procs, pids: nat, id: nat, heir: nat)
    requires Sane(ps, pids) && INIT < id < |ps| && ps[id].Alive()
    ensures Sane(Exited(ps, id, heir), pids) && Later(ps, Exited(ps, id, heir))
  {
    hide Descends, Exited;
    var qs := Exited(ps, id, heir);
    var to := ExitedShape(ps, pids, id, heir);
    forall i | 0 <= i < |qs| ensures SaneAt(qs, i) {
      assert SaneAt(ps, i);
      if ps[i].parent == id {
        DescendsTransitive(ps, i, id, to);
        DescendsStays(ps, qs, i, to);
      } else {
        DescendsStays(ps, qs, i, ps[i].parent);
      }
    }
    OwnersStay(ps, qs);
  }

  lemma ExitedShape(ps: Procs, pids: nat, id: nat, heir: nat) returns (to: nat)
    requires Sane(ps, pids) && INIT < id < |ps| && ps[id].Alive()
    ensures Later(ps, Exited(ps, id, heir))
    ensures to < |ps| && to != id && ps[to].Alive() && Descends(ps, id, to)
    ensures var qs := Exited(ps, id, heir);
            forall i :: 0 <= i < |qs| ==> qs[i] == ps[i].(parent := if ps[i].parent == id then to else ps[i].parent,
                                                          life := if i == id then Zombie else ps[i].life)
  {
    hide Descends, Sane;
    to := if heir < |ps| && heir != id && ps[heir].Alive() && Descends(ps, id, heir) then heir else INIT;
    AllDescendFromInit(ps, pids, id);
    InitAlive(ps, pids);
  }

  lemma ForkIsSane(ps: Procs, pids: nat, maker: nat, pid: nat)
    requires Sane(ps, pids) && maker < |ps| && ps[maker].life.Running? && pid < pids && !Taken(ps, pid)
    ensures var qs := ps + [Process(pid, maker, maker, Running)]; Sane(qs, pids) && Later(ps, qs)
  {
    hide Descends;
    var qs := ps + [Process(pid, maker, maker, Running)];
    assert Later(ps, qs);
    forall i | 0 <= i < |qs| ensures SaneAt(qs, i) {
      if i < |ps| {
        assert SaneAt(ps, i);
        DescendsStays(ps, qs, i, ps[i].parent);
      } else {
        MakerIsForebear(qs, i);
      }
    }
    assert forall i :: 0 <= i < |ps| ==> !Owns(ps, i, pid);
    assert forall i, p :: 0 <= i < |ps| ==> (Owns(qs, i, p) <==> Owns(ps, i, p));
    forall i, j | 0 <= i < |qs| && 0 <= j < |qs| && Owns(qs, i, qs[j].pid) && Owns(qs, j, qs[j].pid) ensures i == j {
      if i < |ps| && j < |ps| {
        assert Owns(ps, i, ps[j].pid) && Owns(ps, j, ps[j].pid);
      }
    }
  }

  lemma MakerIsForebear(ps: Procs, i: nat)
    requires i < |ps| && ps[i].maker < i
    ensures Descends(ps, i, ps[i].maker)
  {
    assert Descends(ps, ps[i].maker, ps[i].maker);
  }

  lemma StepIsSane(ps: Procs, pids: nat, step: Step)
    requires Sane(ps, pids)
    ensures Sane(Do(ps, pids, step), pids) && Later(ps, Do(ps, pids, step))
  {
    hide Descends, Sane, WithLife, Exited, Taken;
    InitAlive(ps, pids);
    match step
    case Fork(maker, pid) =>
      if maker < |ps| && ps[maker].life.Running? && pid < pids && !Taken(ps, pid) {
        ForkIsSane(ps, pids, maker, pid);
      }
    case Exit(id, heir) =>
      if INIT < id < |ps| && ps[id].Alive() {
        ExitedIsSane(ps, pids, id, heir);
      }
    case Reap(id) =>
      if id < |ps| && ps[id].life.Zombie? {
        WithLifeIsSane(ps, pids, id, Reaped);
      }
    case Stop(id) =>
      if INIT < id < |ps| && ps[id].life.Running? {
        WithLifeIsSane(ps, pids, id, Stopped);
      }
    case Continue(id) =>
      if id < |ps| && ps[id].life.Stopped? {
        WithLifeIsSane(ps, pids, id, Running);
      }
  }

  lemma InitAlive(ps: Procs, pids: nat)
    requires Sane(ps, pids)
    ensures ps != [] && ps[INIT].Alive()
  {
  }

  lemma {:induction false} StepsAreSane(ps: Procs, pids: nat, steps: seq<Step>)
    requires Sane(ps, pids)
    ensures Sane(DoAll(ps, pids, steps), pids) && Later(ps, DoAll(ps, pids, steps))
    decreases |steps|
  {
    hide Do, Sane;
    if steps != [] {
      var qs := Do(ps, pids, steps[0]);
      StepIsSane(ps, pids, steps[0]);
      StepsAreSane(qs, pids, steps[1..]);
      LaterTransitive(ps, qs, DoAll(qs, pids, steps[1..]));
    }
  }

  // ----- While a tree is left alone -----

  /** From a to b nobody was reaped, nobody of root's tree died or was continued, and its stopped members got no further
      children. */
  ghost predicate Frozen(a: Procs, b: Procs, root: nat) {
    && Later(a, b)
    && (forall i :: 0 <= i < |a| && !a[i].life.Reaped? ==> !b[i].life.Reaped?)
    && forall p: nat :: p < |a| && Descends(a, p, root) ==>
         && (a[p].Alive() ==> b[p].Alive())
         && (a[p].life.Stopped? ==> b[p].life.Stopped? && NoNewChildren(a, b, p))
  }

  ghost predicate NoNewChildren(a: Procs, b: Procs, p: nat) {
    forall c: nat :: c < |b| && b[c].parent == p && b[c].Alive() ==> c < |a| && a[c].parent == p
  }

  lemma FrozenOn(a: Procs, b: Procs, c: Procs, root: nat)
    requires Frozen(a, b, root) && Frozen(b, c, root)
    ensures Frozen(a, c, root)
  {
    hide Descends;
    LaterTransitive(a, b, c);
    forall p: nat | p < |a| && Descends(a, p, root) ensures Descends(b, p, root) {
      DescendsStays(a, b, p, root);
    }
  }

  lemma FrozenSelf(a: Procs, root: nat)
    ensures Frozen(a, a, root)
  {
    hide Descends;
  }

  /** The step reaps nobody, so that no pid changes hands, and neither ends nor continues a process of root's tree. */
  predicate LeavesAlone(ps: Procs, step: Step, root: nat) {
    !step.Reap? && (step.Exit? || step.Continue? ==> !Descends(ps, step.id, root))
  }

  lemma StepIsFrozen(ps: Procs, pids: nat, step: Step, root: nat)
    requires Sane(ps, pids) && root != INIT && LeavesAlone(ps, step, root)
    ensures Frozen(ps, Do(ps, pids, step), root)
  {
    hide Sane, Descends, WithLife, Exited, Taken;
    StepIsSane(ps, pids, step);
    match step
    case Fork(maker, pid) =>
      ForkIsFrozen(ps, pids, step, root);
    case Exit(id, heir) =>
      if INIT < id < |ps| && ps[id].Alive() {
        ExitIsFrozen(ps, pids, id, heir, root);
      } else {
        FrozenSelf(ps, root);
      }
    case Reap(id) =>
    case Stop(id) =>
      if INIT < id < |ps| && ps[id].life.Running? {
        LifeIsFrozen(ps, id, Stopped, root);
      } else {
        FrozenSelf(ps, root);
      }
    case Continue(id) =>
      if id < |ps| && ps[id].life.Stopped? {
        LifeIsFrozen(ps, id, Running, root);
      } else {
        FrozenSelf(ps, root);
      }
  }

  lemma ForkIsFrozen(ps: Procs, pids: nat, step: Step, root: nat)
    requires step.Fork? && Later(ps, Do(ps, pids, step))
    ensures Frozen(ps, Do(ps, pids, step), root)
  {
    hide Descends, Taken;
  }

  /** A change of life that kills nobody and continues nobody of the tree. */
  lemma LifeIsFrozen(ps: Procs, id: nat, life: Life, root: nat)
    requires id < |ps| && Later(ps, WithLife(ps, id, life))
    requires ps[id].life.Running? ==> life.Stopped?
    requires ps[id].life.Stopped? ==> life.Stopped? || !Descends(ps, id, root)
    requires ps[id].Alive() && !life.Reaped?
    ensures Frozen(ps, WithLife(ps, id, life), root)
  {
    hide Descends;
  }

  lemma ExitIsFrozen(ps: Procs, pids: nat, id: nat, heir: nat, root: nat)
    requires Sane(ps, pids) && root != INIT && INIT < id < |ps| && ps[id].Alive() && !Descends(ps, id, root)
    ensures Frozen(ps, Exited(ps, id, heir), root)
  {
    hide Descends, Exited;
    var qs := Exited(ps, id, heir);
    var to := ExitedShape(ps, pids, id, heir);
    forall p: nat | p < |ps| && Descends(ps, p, root) ensures p != id && p != to {
      if p == to {
        DescendsTransitive(ps, id, to, root);
      }
    }
    assert forall c: nat :: c < |qs| && qs[c].parent != to ==> ps[c].parent == qs[c].parent;
  }

  /** Steps that leave the tree alone, as seen from their end. */
  lemma {:induction false} StepsAreFrozen(ps: Procs, pids: nat, steps: seq<Step>, root: nat)
    requires Sane(ps, pids) && root != INIT
    requires forall s | s in steps :: LeavesAlone(DoAll(ps, pids, steps), s, root)
    ensures Frozen(ps, DoAll(ps, pids, steps), root)
    decreases |steps|
  {
    hide Do, Sane, Descends, LeavesAlone;
    if steps == [] {
      FrozenSelf(ps, root);
    } else {
      var qs, last := Do(ps, pids, steps[0]), DoAll(ps, pids, steps);
      StepIsSane(ps, pids, steps[0]);
      StepsAreSane(qs, pids, steps[1..]);
      LaterTransitive(ps, qs, last);
      assert steps[0] in steps;
      AloneBefore(ps, last, steps[0], root);
      StepIsFrozen(ps, pids, steps[0], root);
      StepsAreFrozen(qs, pids, steps[1..], root);
      FrozenOn(ps, qs, last, root);
    }
  }

  lemma AloneBefore(ps: Procs, last: Procs, step: Step, root: nat)
    requires Later(ps, last) && LeavesAlone(last, step, root)
    ensures LeavesAlone(ps, step, root)
  {
    hide Descends;
    if (step.Exit? || step.Continue?) && Descends(ps, step.id, root) {
      DescendsStays(ps, last, step.id, root);
    }
  }
}
