/** The process-tree kill (sandbox/hostexec_kill_linux.go:108-285). The walk's every look at the system and every
    signal is one moment; between two moments the system takes any steps it likes. */
module KillWalk {

  import opened Decimal
  import opened Processes

  datatype Sig = SIGSTOP | SIGKILL

  /** A signal through a pidfd reaches the process, finds it gone, or is refused. `killRoot` needs no pidfd, and its
      error is ignored. */
  datatype Outcome = Delivered | Gone | Refused | Fallback(failed: bool)

  datatype Sent = Sent(id: nat, sig: Sig, outcome: Outcome)

  /** Everything the walk does not control: what the system does in between, which calls fail, what /proc lists as the
      children of a process that still runs, whether a second look at a process's tasks shows the same ones, how long
      waits last and how many passes the clock allows. */
  datatype Env = Env(pids: nat, steps: nat -> seq<Step>, fails: nat -> bool, children: nat -> seq<nat>,
                     same: nat -> bool, tries: nat -> nat, passes: nat)

  datatype Os = Os(procs: Procs, sent: seq<Sent>, now: nat)

  function Passed(env: Env, os: Os): Os {
    os.(procs := DoAll(os.procs, env.pids, env.steps(os.now)), now := os.now + 1)
  }

  /** `pidfdAlive`: a failing poll reads as not alive. */
  function Poll(env: Env, os: Os, id: nat): (Os, bool) {
    var next := Passed(env, os);
    (next, id < |next.procs| && next.procs[id].Alive() && !env.fails(os.now))
  }

  function Owner(ps: Procs, pid: nat, n: nat): (r: Option<nat>)
    requires n <= |ps|
    ensures r.Some? ==> r.value < n && Owns(ps, r.value, pid)
    ensures r.None? ==> forall i :: 0 <= i < n ==> !Owns(ps, i, pid)
  {
    if n == 0 then None else if Owns(ps, n - 1, pid) then Some(n - 1) else Owner(ps, pid, n - 1)
  }

  function Open(env: Env, os: Os, pid: nat): (Os, Option<nat>) {
    var next := Passed(env, os);
    (next, if env.fails(os.now) then None else Owner(next.procs, pid, |next.procs|))
  }

  /** `procParent`: the parent pid of whoever owns the pid now. */
  function ParentPid(env: Env, os: Os, pid: nat): (Os, Option<nat>) {
    var next := Passed(env, os);
    var who := Owner(next.procs, pid, |next.procs|);
    (next, if env.fails(os.now) || who.None? || next.procs[who.value].parent >= |next.procs| then None
           else Some(next.procs[next.procs[who.value].parent].pid))
  }

  /** `allStopped`: no task of whoever owns the pid runs. */
  function AllStopped(env: Env, os: Os, pid: nat): (Os, bool) {
    var next := Passed(env, os);
    var who := Owner(next.procs, pid, |next.procs|);
    (next, who.Some? && !next.procs[who.value].life.Running? && !env.fails(os.now))
  }

  /** The pids of the unreaped children of a process, among the first n. */
  function ChildPids(ps: Procs, id: nat, n: nat): (r: seq<nat>)
    requires n <= |ps|
    ensures forall c: nat :: c < n && ps[c].parent == id && !ps[c].life.Reaped? ==> ps[c].pid in r
  {
    if n == 0 then []
    else
      ChildPids(ps, id, n - 1) + if ps[n - 1].parent == id && !ps[n - 1].life.Reaped? then [ps[n - 1].pid] else []
  }

  /** `readProcChildren`: exact once nothing of the process runs, whatever /proc shows while it does. */
  function Children(env: Env, os: Os, pid: nat): (Os, Option<seq<nat>>) {
    var next := Passed(env, os);
    var who := Owner(next.procs, pid, |next.procs|);
    (next, if env.fails(os.now) || who.None? then None
           else if next.procs[who.value].life.Running? then Some(env.children(os.now))
           else Some(ChildPids(next.procs, who.value, |next.procs|)))
  }

  /** What a delivered signal does. */
  function Hit(ps: Procs, id: nat, sig: Sig): (r: Procs)
    requires id < |ps|
  {
    if id == INIT || !ps[id].Alive() then ps
    else if sig.SIGSTOP? then WithLife(ps, id, Stopped)
    else Exited(ps, id, INIT)
  }

  function Signal(env: Env, os: Os, id: nat, sig: Sig): (Os, Outcome) {
    var next := Passed(env, os);
    var outcome := if id >= |next.procs| || next.procs[id].life.Reaped? then Gone
                   else if env.fails(os.now) then Refused else Delivered;
    var ps := if outcome.Delivered? then Hit(next.procs, id, sig) else next.procs;
    (next.(procs := ps, sent := next.sent + [Sent(id, sig, outcome)]), outcome)
  }

  /** `cmd.Process.Kill`: the root's own handle. */
  function KillRoot(env: Env, os: Os, root: nat): Os {
    var next := Passed(env, os);
    var failed := env.fails(os.now);
    var ps := if root < |next.procs| && !failed then Hit(next.procs, root, SIGKILL) else next.procs;
    next.(procs := ps, sent := next.sent + [Sent(root, SIGKILL, Fallback(failed))])
  }

  // ----- What every moment keeps -----

  /** Time went on, and the log only grew. */
  ghost predicate After(env: Env, a: Os, b: Os) {
    Sane(a.procs, env.pids) && Sane(b.procs, env.pids) && Later(a.procs, b.procs) && a.sent <= b.sent && a.now <= b.now
  }

  lemma AfterTransitive(env: Env, a: Os, b: Os, c: Os)
    requires After(env, a, b) && After(env, b, c)
    ensures After(env, a, c)
  {
    hide Sane;
    LaterTransitive(a.procs, b.procs, c.procs);
  }

  lemma PassedIsAfter(env: Env, os: Os)
    requires Sane(os.procs, env.pids)
    ensures After(env, os, Passed(env, os)) && Passed(env, os).sent == os.sent
  {
    hide Sane, DoAll;
    StepsAreSane(os.procs, env.pids, env.steps(os.now));
  }

  lemma HitIsSane(ps: Procs, pids: nat, id: nat, sig: Sig)
    requires Sane(ps, pids) && id < |ps|
    ensures Sane(Hit(ps, id, sig), pids) && Later(ps, Hit(ps, id, sig))
    ensures sig.SIGKILL? && id != INIT ==> !Hit(ps, id, sig)[id].Alive()
  {
    hide Sane, Exited, WithLife;
    if id != INIT && ps[id].Alive() {
      if sig.SIGSTOP? {
        WithLifeIsSane(ps, pids, id, Stopped);
      } else {
        ExitedIsSane(ps, pids, id, INIT);
        ExitedIsDead(ps, id);
      }
    }
  }

  lemma ExitedIsDead(ps: Procs, id: nat)
    requires id < |ps|
    ensures !Exited(ps, id, INIT)[id].Alive()
  {
  }

  lemma SignalIsAfter(env: Env, os: Os, id: nat, sig: Sig)
    requires Sane(os.procs, env.pids)
    ensures var (next, outcome) := Signal(env, os, id, sig);
            && After(env, os, next) && next.sent == os.sent + [Sent(id, sig, outcome)] && !outcome.Fallback?
            && (outcome.Delivered? ==> id < |next.procs|)
            && (sig.SIGKILL? && id != INIT && (outcome.Delivered? || outcome.Gone?) && id < |next.procs| ==>
                !next.procs[id].Alive())
  {
    hide Sane, DoAll, Hit;
    PassedIsAfter(env, os);
    var mid := Passed(env, os);
    var (next, outcome) := Signal(env, os, id, sig);
    if outcome.Delivered? {
      HitIsSane(mid.procs, env.pids, id, sig);
      LaterTransitive(os.procs, mid.procs, next.procs);
    }
  }

  lemma ReachedIsThere(env: Env, os: Os, id: nat, sig: Sig)
    ensures var (next, outcome) := Signal(env, os, id, sig);
            outcome.Delivered? ==> id < |next.procs| && !next.procs[id].life.Reaped?
  {
    hide DoAll, Descends;
  }

  lemma KillRootIsAfter(env: Env, os: Os, root: nat)
    requires Sane(os.procs, env.pids) && root < |os.procs|
    ensures var next := KillRoot(env, os, root);
            && After(env, os, next) && next.sent == os.sent + [Sent(root, SIGKILL, Fallback(env.fails(os.now)))]
            && (root != INIT && !env.fails(os.now) ==> !next.procs[root].Alive())
  {
    hide Sane, DoAll, Hit;
    PassedIsAfter(env, os);
    var mid := Passed(env, os);
    HitIsSane(mid.procs, env.pids, root, SIGKILL);
    LaterTransitive(os.procs, mid.procs, KillRoot(env, os, root).procs);
  }

  // ----- Who is signalled -----

  lemma OneOwner(ps: Procs, pids: nat, i: nat, j: nat, pid: nat)
    requires Sane(ps, pids) && Owns(ps, i, pid) && Owns(ps, j, pid)
    ensures i == j
  {
    assert Owns(ps, i, ps[j].pid) && Owns(ps, j, ps[j].pid);
  }

  /** Whoever owns the candidate's pid when its parent is read is a child of p, if p is alive even later. */
  lemma ParentIs(env: Env, os: Os, c: nat, p: nat, y: nat)
    requires Sane(os.procs, env.pids) && p < |os.procs| && os.procs[p].Alive()
    requires Owns(os.procs, y, c) && os.procs[y].parent < |os.procs| &&
             os.procs[os.procs[y].parent].pid == os.procs[p].pid
    ensures Descends(os.procs, y, p)
  {
    hide Descends;
    assert SaneAt(os.procs, y);
    OneOwner(os.procs, env.pids, os.procs[y].parent, p, os.procs[p].pid);
  }

  /** The test at the heart of the walk: a process reached through the opened pidfd, after its pid was read to have
      p's pid as parent and p was alive after that, descends from p. Had its pid been reused in between, the
      process behind the pidfd would be gone and the signal would reach nobody. */
  lemma ReachedIsGenuine(env: Env, os: Os, c: nat, p: nat)
    requires Sane(os.procs, env.pids) && p < |os.procs|
    requires var (os1, x) := Open(env, os, c); var (os2, parent) := ParentPid(env, os1, c);
             var (os3, alive) := Poll(env, os2, p);
             x.Some? && parent == Some(os.procs[p].pid) && alive
    ensures var (os1, x) := Open(env, os, c); var (os2, parent) := ParentPid(env, os1, c);
            var (os3, alive) := Poll(env, os2, p);
            var (os4, outcome) := Signal(env, os3, x.value, SIGSTOP);
            outcome.Delivered? ==>
              x.value < |os4.procs| && os4.procs[x.value].pid == c && Descends(os4.procs, x.value, p)
  {
    hide Sane, DoAll, Hit, Descends;
    var (os1, x) := Open(env, os, c);
    var (os2, parent) := ParentPid(env, os1, c);
    var (os3, alive) := Poll(env, os2, p);
    var (os4, outcome) := Signal(env, os3, x.value, SIGSTOP);
    PassedIsAfter(env, os);
    PassedIsAfter(env, os1);
    PassedIsAfter(env, os2);
    SignalIsAfter(env, os3, x.value, SIGSTOP);
    AfterTransitive(env, os2, os3, os4);
    if outcome.Delivered? {
      SignalFound(env, os3, x.value, SIGSTOP);
      var y := Owner(os2.procs, c, |os2.procs|).value;
      assert Owns(os2.procs, x.value, c);
      OneOwner(os2.procs, env.pids, x.value, y, c);
      ParentIs(env, os2, c, p, y);
      DescendsStays(os2.procs, os4.procs, y, p);
    }
  }

  lemma SignalFound(env: Env, os: Os, id: nat, sig: Sig)
    requires Sane(os.procs, env.pids) && Signal(env, os, id, sig).1.Delivered?
    ensures id < |os.procs| ==> !os.procs[id].life.Reaped?
  {
    hide Sane, DoAll, Hit;
    PassedIsAfter(env, os);
  }

  // ----- The walk -----

  datatype Held = Held(pid: nat, id: nat)

  /** The root first, and below it only genuine descendants. */
  ghost predicate HeldOk(os: Os, held: seq<Held>, root: nat) {
    && held != [] && held[0].id == root
    && forall k :: 0 <= k < |held| ==>
         held[k].id < |os.procs| && os.procs[held[k].id].pid == held[k].pid && Descends(os.procs, held[k].id, root)
  }

  predicate Reached(s: Sent) {
    s.outcome.Delivered? || s.outcome == Fallback(false)
  }

  /** From some entry of the log on, signals reached only the root and its descendants. */
  ghost predicate OnlyTree(os: Os, from: nat, root: nat) {
    forall k :: from <= k < |os.sent| && Reached(os.sent[k]) ==> Descends(os.procs, os.sent[k].id, root)
  }

  predicate IsStop(s: Sent) {
    s.sig.SIGSTOP? && s.outcome.Delivered?
  }

  predicate Holds(held: seq<Held>, id: nat) {
    exists k :: 0 <= k < |held| && held[k].id == id
  }

  /** Whoever was stopped is held. */
  ghost predicate StopsHeld(os: Os, from: nat, held: seq<Held>) {
    forall k :: from <= k < |os.sent| && IsStop(os.sent[k]) ==> Holds(held, os.sent[k].id)
  }

  ghost predicate Walking(env: Env, start: Os, os: Os, held: seq<Held>, root: nat) {
    && After(env, start, os) && HeldOk(os, held, root)
    && OnlyTree(os, |start.sent|, root) && StopsHeld(os, |start.sent|, held)
  }

  /** Time goes on, and the log gains entries about descendants, stops of held processes among them. */
  lemma WalkingOn(env: Env, start: Os, os: Os, next: Os, held: seq<Held>, more: seq<Held>, root: nat)
    requires Walking(env, start, os, held, root) && After(env, os, next) && held <= more && HeldOk(next, more, root)
    requires forall k :: |os.sent| <= k < |next.sent| && Reached(next.sent[k]) ==>
             Descends(next.procs, next.sent[k].id, root)
    requires forall k :: |os.sent| <= k < |next.sent| && IsStop(next.sent[k]) ==> Holds(more, next.sent[k].id)
    ensures Walking(env, start, next, more, root)
  {
    hide Sane, Descends, HeldOk;
    AfterTransitive(env, start, os, next);
    forall k | |start.sent| <= k < |next.sent| &&
        Reached(next.sent[k]) ensures Descends(next.procs, next.sent[k].id, root) {
      if k < |os.sent| {
        assert next.sent[k] == os.sent[k];
        DescendsStays(os.procs, next.procs, os.sent[k].id, root);
      }
    }
    forall k | |start.sent| <= k < |next.sent| && IsStop(next.sent[k]) ensures Holds(more, next.sent[k].id) {
      if k < |os.sent| {
        assert next.sent[k] == os.sent[k];
        var h :| 0 <= h < |held| && held[h].id == os.sent[k].id;
        assert more[h] == held[h];
      }
    }
  }

  lemma HeldStays(env: Env, os: Os, next: Os, held: seq<Held>, root: nat)
    requires After(env, os, next) && HeldOk(os, held, root)
    ensures HeldOk(next, held, root)
  {
    hide Sane, Descends;
    forall k | 0 <= k < |held| ensures Descends(next.procs, held[k].id, root) {
      DescendsStays(os.procs, next.procs, held[k].id, root);
    }
  }

  lemma WalkingPassed(env: Env, start: Os, os: Os, held: seq<Held>, root: nat)
    requires Walking(env, start, os, held, root)
    ensures Walking(env, start, Passed(env, os), held, root)
  {
    hide Sane, Descends, HeldOk, OnlyTree, StopsHeld, DoAll, Passed;
    PassedIsAfter(env, os);
    HeldStays(env, os, Passed(env, os), held, root);
    WalkingOn(env, start, os, Passed(env, os), held, held, root);
  }

  /** A signal to a held process. */
  lemma WalkingSignal(env: Env, start: Os, os: Os, held: seq<Held>, root: nat, i: nat, sig: Sig)
    requires Walking(env, start, os, held, root) && i < |held|
    ensures Walking(env, start, Signal(env, os, held[i].id, sig).0, held, root)
  {
    hide Sane, Descends, OnlyTree, StopsHeld, DoAll, Signal;
    var next := Signal(env, os, held[i].id, sig).0;
    SignalIsAfter(env, os, held[i].id, sig);
    HeldStays(env, os, next, held, root);
    assert Holds(held, held[i].id);
    WalkingOn(env, start, os, next, held, held, root);
  }

  // ----- A tree left alone -----

  /** At moment t no call fails, nobody is reaped, and nobody of root's tree, as ps shows it, exits or is continued. */
  ghost predicate Spared(env: Env, ps: Procs, root: nat, t: nat) {
    !env.fails(t) && forall s | s in env.steps(t) :: LeavesAlone(ps, s, root)
  }

  ghost predicate LeftAlone(env: Env, from: Os, to: Os, root: nat) {
    root != INIT && forall t: nat :: from.now <= t < to.now ==> Spared(env, to.procs, root, t)
  }

  /** What holds of a stretch holds of its parts. */
  lemma LeftAloneParts(env: Env, a: Os, b: Os, c: Os, root: nat)
    requires After(env, a, b) && After(env, b, c) && LeftAlone(env, a, c, root)
    ensures LeftAlone(env, a, b, root) && LeftAlone(env, b, c, root)
  {
    hide Sane, LeavesAlone;
    forall t: nat | a.now <= t < b.now ensures Spared(env, b.procs, root, t) {
      assert Spared(env, c.procs, root, t);
      forall s | s in env.steps(t) ensures LeavesAlone(b.procs, s, root) {
        AloneBefore(b.procs, c.procs, s, root);
      }
    }
  }

  lemma PassedIsFrozen(env: Env, os: Os, root: nat)
    requires Sane(os.procs, env.pids) && LeftAlone(env, os, Passed(env, os), root)
    ensures Frozen(os.procs, Passed(env, os).procs, root) && !env.fails(os.now)
  {
    hide Sane, DoAll, LeavesAlone, Frozen;
    assert Spared(env, Passed(env, os).procs, root, os.now);
    StepsAreFrozen(os.procs, env.pids, env.steps(os.now), root);
  }

  /** A SIGSTOP in a tree left alone reaches whoever is not reaped, and stops whoever lives. */
  lemma StopIsFrozen(env: Env, os: Os, id: nat, root: nat)
    requires Sane(os.procs, env.pids) && LeftAlone(env, os, Signal(env, os, id, SIGSTOP).0, root)
    ensures var (next, outcome) := Signal(env, os, id, SIGSTOP);
            && Frozen(os.procs, next.procs, root)
            && (id < |os.procs| && !os.procs[id].life.Reaped? ==> outcome.Delivered?)
  {
    hide Sane, DoAll, LeavesAlone, Descends;
    var mid := Passed(env, os);
    var (next, outcome) := Signal(env, os, id, SIGSTOP);
    PassedIsAfter(env, os);
    SignalIsAfter(env, os, id, SIGSTOP);
    if id < |mid.procs| {
      HitIsSane(mid.procs, env.pids, id, SIGSTOP);
    }
    SpareBefore(env, os, next, root);
    PassedIsFrozen(env, os, root);
    if outcome.Delivered? && id != INIT && mid.procs[id].Alive() {
      LifeIsFrozen(mid.procs, id, Stopped, root);
      FrozenOn(os.procs, mid.procs, next.procs, root);
    }
  }

  lemma SpareBefore(env: Env, os: Os, next: Os, root: nat)
    requires LeftAlone(env, os, next, root) && next.now == os.now + 1 && Later(Passed(env, os).procs, next.procs)
    ensures LeftAlone(env, os, Passed(env, os), root)
  {
    hide DoAll, LeavesAlone;
    var mid := Passed(env, os);
    assert Spared(env, next.procs, root, os.now);
    forall s | s in env.steps(os.now) ensures LeavesAlone(mid.procs, s, root) {
      AloneBefore(mid.procs, next.procs, s, root);
    }
  }

  /** Every held process still owns its pid, and every accepted pid is a held one's. */
  ghost predicate Known(os: Os, held: seq<Held>, seen: set<nat>) {
    && (forall k :: 0 <= k < |held| ==> held[k].id < |os.procs| && Owns(os.procs, held[k].id, held[k].pid))
    && (forall c | c in seen :: exists k :: 0 <= k < |held| && held[k].pid == c)
  }

  lemma KnownStays(env: Env, os: Os, next: Os, held: seq<Held>, seen: set<nat>, root: nat)
    requires Known(os, held, seen) && Frozen(os.procs, next.procs, root)
    ensures Known(next, held, seen)
  {
    hide Descends;
  }

  /** Whoever lives and is p's child with pid c is held. */
  ghost predicate ChildHeld(ps: Procs, p: nat, c: nat, held: seq<Held>) {
    forall x: nat :: x < |ps| && ps[x].parent == p && ps[x].Alive() && ps[x].pid == c ==> Holds(held, x)
  }

  /** The held process does not run, and whoever lives and is its child is held. */
  ghost predicate Closed(os: Os, held: seq<Held>, k: nat) {
    && k < |held| && held[k].id < |os.procs| && !os.procs[held[k].id].life.Running?
    && forall x: nat :: x < |os.procs| && os.procs[x].parent == held[k].id && os.procs[x].Alive() ==> Holds(held, x)
  }

  lemma ClosedStays(env: Env, os: Os, next: Os, held: seq<Held>, more: seq<Held>, k: nat, root: nat)
    requires Closed(os, held, k) && held <= more && Frozen(os.procs, next.procs, root) && After(env, os, next)
    requires Descends(os.procs, held[k].id, root)
    ensures Closed(next, more, k)
  {
    hide Descends;
    var p := held[k].id;
    assert more[k] == held[k];
    forall x: nat | x < |next.procs| && next.procs[x].parent == p && next.procs[x].Alive() ensures Holds(more, x) {
      assert SaneAt(next.procs, x);
      assert x < |os.procs| && os.procs[x].parent == p;
      var h :| 0 <= h < |held| && held[h].id == x;
      assert more[h] == held[h];
    }
  }

  /** The dead have no children. */
  lemma DeadAreClosed(env: Env, os: Os, held: seq<Held>, k: nat)
    requires Sane(os.procs, env.pids) && k < |held| && held[k].id < |os.procs| && !os.procs[held[k].id].Alive()
    ensures Closed(os, held, k)
  {
    hide Descends;
    assert forall x: nat :: x < |os.procs| ==> SaneAt(os.procs, x);
  }

  /** c is root, or its parent is in the tree. */
  predicate Below(ps: Procs, c: nat, root: nat)
    decreases c
  {
    c == root || (c < |ps| && ps[c].parent < c && Below(ps, ps[c].parent, root))
  }

  /** When every held process is closed, the whole living tree is held. */
  lemma {:induction false} WholeTree(env: Env, os: Os, held: seq<Held>, root: nat, c: nat)
    requires Sane(os.procs, env.pids) && held != [] && held[0].id == root && forall k :: 0 <= k < |held| ==>
             Closed(os, held, k)
    requires c < |os.procs| && os.procs[c].Alive() && Below(os.procs, c, root)
    ensures Holds(held, c)
    decreases c
  {
    hide Descends;
    if c == root {
      assert held[0].id == c;
    } else {
      assert SaneAt(os.procs, c);
      WholeTree(env, os, held, root, os.procs[c].parent);
      var k :| 0 <= k < |held| && held[k].id == os.procs[c].parent;
      assert Closed(os, held, k);
    }
  }

  /** What a stretch of the walk keeps when the tree is left alone in it. */
  ghost predicate Keeps(env: Env, os: Os, next: Os, root: nat) {
    After(env, os, next) && (LeftAlone(env, os, next, root) ==> Frozen(os.procs, next.procs, root))
  }

  lemma KeepsOn(env: Env, a: Os, b: Os, c: Os, root: nat)
    requires Keeps(env, a, b, root) && Keeps(env, b, c, root)
    ensures Keeps(env, a, c, root)
  {
    hide Sane, Frozen, LeftAlone;
    AfterTransitive(env, a, b, c);
    if LeftAlone(env, a, c, root) {
      LeftAloneParts(env, a, b, c, root);
      FrozenOn(a.procs, b.procs, c.procs, root);
    }
  }

  lemma KeepsSelf(env: Env, os: Os, root: nat)
    requires Sane(os.procs, env.pids)
    ensures Keeps(env, os, os, root)
  {
    hide Sane, Descends;
  }

  lemma PassedKeeps(env: Env, os: Os, root: nat)
    requires Sane(os.procs, env.pids)
    ensures Keeps(env, os, Passed(env, os), root)
  {
    hide Sane, DoAll, Frozen, LeftAlone;
    PassedIsAfter(env, os);
    if LeftAlone(env, os, Passed(env, os), root) {
      PassedIsFrozen(env, os, root);
    }
  }

  lemma StopKeeps(env: Env, os: Os, id: nat, root: nat)
    requires Sane(os.procs, env.pids)
    ensures Keeps(env, os, Signal(env, os, id, SIGSTOP).0, root)
  {
    hide Sane, Signal, Frozen, LeftAlone;
    SignalIsAfter(env, os, id, SIGSTOP);
    if LeftAlone(env, os, Signal(env, os, id, SIGSTOP).0, root) {
      StopIsFrozen(env, os, id, root);
    }
  }

  lemma WalkingIsSane(env: Env, start: Os, os: Os, held: seq<Held>, root: nat)
    requires Walking(env, start, os, held, root)
    ensures Sane(os.procs, env.pids)
    ensures forall k :: 0 <= k < |held| ==> held[k].id < |os.procs| && Descends(os.procs, held[k].id, root)
  {
    hide Sane, OnlyTree, StopsHeld, Descends;
  }

  /** A held process seen stopped stays so while the tree is left alone. */
  lemma SeenStopped(env: Env, os: Os, next: Os, h: Held, root: nat)
    requires Sane(os.procs, env.pids) && Keeps(env, AllStopped(env, os, h.pid).0, next, root)
    requires h.id < |os.procs| && Descends(os.procs, h.id, root) && Owns(os.procs, h.id, h.pid)
    requires AllStopped(env, os, h.pid).1 && LeftAlone(env, os, next, root)
    ensures h.id < |next.procs| && !next.procs[h.id].life.Running?
  {
    hide Sane, Passed, Descends, LeftAlone, Frozen, Keeps, AllStopped, Later, Owns, After;
    var mid := Passed(env, os);
    LookIs(env, os, h.pid);
    PassedKeeps(env, os, root);
    KeepsMeans(env, os, mid, root);
    KeepsMeans(env, mid, next, root);
    LeftAloneParts(env, os, mid, next, root);
    OwnsStays(os.procs, mid.procs, h.id, h.pid, root);
    StoppedMeans(env, os, h);
    DescendsStays(os.procs, mid.procs, h.id, root);
    NotRunningStays(mid.procs, next.procs, h.id, root);
  }

  lemma StoppedMeans(env: Env, os: Os, h: Held)
    requires AllStopped(env, os, h.pid).1 && Owns(Passed(env, os).procs, h.id, h.pid)
    requires Sane(Passed(env, os).procs, env.pids)
    ensures h.id < |Passed(env, os).procs| && !Passed(env, os).procs[h.id].life.Running?
  {
    hide Sane, Passed;
    var mid := Passed(env, os);
    OneOwner(mid.procs, env.pids, h.id, Owner(mid.procs, h.pid, |mid.procs|).value, h.pid);
  }

  lemma OwnsStays(a: Procs, b: Procs, id: nat, pid: nat, root: nat)
    requires Frozen(a, b, root) && Owns(a, id, pid)
    ensures Owns(b, id, pid)
  {
    hide Descends;
  }

  lemma NotRunningStays(a: Procs, b: Procs, id: nat, root: nat)
    requires Frozen(a, b, root) && id < |a| && Descends(a, id, root) && !a[id].life.Running?
    ensures id < |b| && !b[id].life.Running?
  {
    hide Descends;
  }

  /** `waitStopped`: SIGSTOP again while the process is not seen stopped. */
  method WaitStopped(env: Env, os: Os, held: seq<Held>, i: nat, ghost start: Os, ghost root: nat)
    returns (next: Os, ok: bool)
    requires Walking(env, start, os, held, root) && i < |held|
    ensures Walking(env, start, next, held, root) && Keeps(env, os, next, root) && held[i].id < |next.procs|
    ensures ok && LeftAlone(env, os, next, root) && Owns(os.procs, held[i].id, held[i].pid) ==>
              !next.procs[held[i].id].life.Running?
  {
    hide Walking, Sane, Descends, Signal, Passed, Keeps, AllStopped, LeftAlone;
    next := os;
    WalkingIsSane(env, start, os, held, root);
    KeepsSelf(env, os, root);
    for n := 0 to env.tries(os.now)
      invariant Walking(env, start, next, held, root) && Keeps(env, os, next, root)
    {
      WalkingIsSane(env, start, next, held, root);
      WalkingPassed(env, start, next, held, root);
      ghost var before := next;
      var (os1, stopped) := AllStopped(env, next, held[i].pid);
      LookIs(env, next, held[i].pid);
      PassedKeeps(env, next, root);
      KeepsOn(env, os, next, os1, root);
      next := os1;
      WalkingIsSane(env, start, next, held, root);
      if stopped {
        var same := env.same(next.now) && !env.fails(next.now);
        WalkingPassed(env, start, next, held, root);
        PassedKeeps(env, next, root);
        KeepsOn(env, os, next, Passed(env, next), root);
        next := Passed(env, next);
        WalkingIsSane(env, start, next, held, root);
        if same {
          StillStopped(env, os, before, next, held[i], root);
          return next, true;
        }
      } else {
        WalkingSignal(env, start, next, held, root, i, SIGSTOP);
        StopKeeps(env, next, held[i].id, root);
        KeepsOn(env, os, next, Signal(env, next, held[i].id, SIGSTOP).0, root);
        next := Signal(env, next, held[i].id, SIGSTOP).0;
      }
    }
    WalkingIsSane(env, start, next, held, root);
    ok := false;
  }

  lemma LookIs(env: Env, os: Os, pid: nat)
    ensures AllStopped(env, os, pid).0 == Passed(env, os) && Children(env, os, pid).0 == Passed(env, os)
  {
  }

  lemma StillStopped(env: Env, os: Os, before: Os, next: Os, h: Held, root: nat)
    requires Keeps(env, os, before, root) && AllStopped(env, before, h.pid).1
    requires next == Passed(env, Passed(env, before)) && h.id < |before.procs| && Descends(before.procs, h.id, root)
    ensures LeftAlone(env, os, next, root) && Owns(os.procs, h.id, h.pid) ==>
              h.id < |next.procs| && !next.procs[h.id].life.Running?
  {
    hide Sane, DoAll, Descends, LeftAlone, AllStopped, Passed;
    KeepsMeans(env, os, before, root);
    LookIs(env, before, h.pid);
    PassedKeeps(env, before, root);
    var mid := Passed(env, before);
    KeepsMeans(env, before, mid, root);
    PassedKeeps(env, mid, root);
    KeepsMeans(env, mid, next, root);
    AfterTransitive(env, before, mid, next);
    if LeftAlone(env, os, next, root) && Owns(os.procs, h.id, h.pid) {
      LeftAloneParts(env, os, before, next, root);
      SeenStopped(env, before, next, h, root);
    }
  }

  lemma KeepsMeans(env: Env, a: Os, b: Os, root: nat)
    requires Keeps(env, a, b, root)
    ensures After(env, a, b) && Sane(a.procs, env.pids) && Sane(b.procs, env.pids) && Later(a.procs, b.procs)
    ensures LeftAlone(env, a, b, root) ==> Frozen(a.procs, b.procs, root)
  {
    hide Sane, Frozen, LeftAlone;
  }

  /** What one more listed pid does to the walk: nothing, or it is seen, or it is seen and held. */
  predicate Considered(env: Env, c: nat, held: seq<Held>, seen: set<nat>, more: seq<Held>, seen': set<nat>) {
    && (seen' == seen || (c < env.pids && c !in seen && seen' == seen + {c}))
    && (more == held || (seen' != seen && |more| == |held| + 1 && held <= more))
  }

  /** What is known after a listed pid was considered: the accepted are held, and p's child of that pid is. */
  ghost predicate Settles(next: Os, p: nat, c: nat, more: seq<Held>, seen': set<nat>) {
    Known(next, more, seen') && ChildHeld(next.procs, p, c, more)
  }

  lemma SeenIsHeld(env: Env, os: Os, held: seq<Held>, seen: set<nat>, p: nat, c: nat)
    requires Sane(os.procs, env.pids) && Known(os, held, seen) && c in seen
    ensures Settles(os, p, c, held, seen)
  {
    hide Sane;
    var k :| 0 <= k < |held| && held[k].pid == c;
    forall x: nat | x < |os.procs| && os.procs[x].parent == p && os.procs[x].Alive() && os.procs[x].pid == c
      ensures Holds(held, x)
    {
      OneOwner(os.procs, env.pids, held[k].id, x, c);
    }
  }

  lemma UnownedChild(env: Env, os: Os, c: nat, p: nat, held: seq<Held>)
    requires Open(env, os, c).1.None? && !env.fails(os.now)
    ensures ChildHeld(Passed(env, os).procs, p, c, held)
  {
    hide Passed;
    var ps := Passed(env, os).procs;
    assert forall x: nat :: x < |ps| && ps[x].Alive() && ps[x].pid == c ==> Owns(ps, x, c);
  }

  lemma ParentOfChild(env: Env, os: Os, c: nat, h: Held, x: nat)
    requires !env.fails(os.now) && Sane(Passed(env, os).procs, env.pids) && Owns(Passed(env, os).procs, h.id, h.pid)
    requires var ps := Passed(env, os).procs; x < |ps| && ps[x].parent == h.id && ps[x].Alive() && ps[x].pid == c
    ensures ParentPid(env, os, c).1 == Some(h.pid)
  {
    hide Sane, Passed;
    var ps := Passed(env, os).procs;
    assert Owns(ps, x, c);
    OneOwner(ps, env.pids, Owner(ps, c, |ps|).value, x, c);
  }

  lemma ForeignChild(env: Env, os: Os, c: nat, h: Held, held: seq<Held>)
    requires ParentPid(env, os, c).1 != Some(h.pid) && !env.fails(os.now) && Sane(Passed(env, os).procs, env.pids)
    requires Owns(Passed(env, os).procs, h.id, h.pid)
    ensures ChildHeld(Passed(env, os).procs, h.id, c, held)
  {
    hide Sane, Passed, ParentPid;
    var ps := Passed(env, os).procs;
    if x: nat :| x < |ps| && ps[x].parent == h.id && ps[x].Alive() && ps[x].pid == c {
      ParentOfChild(env, os, c, h, x);
      assert false;
    }
  }

  lemma DeadParent(env: Env, os: Os, c: nat, p: nat, held: seq<Held>)
    requires Sane(os.procs, env.pids) && p < |os.procs| && !os.procs[p].Alive()
    ensures ChildHeld(os.procs, p, c, held)
  {
    hide Descends;
    assert forall x: nat :: x < |os.procs| ==> SaneAt(os.procs, x);
  }

  /** The opened process still owns the pid, so it is the child. */
  lemma AcceptedChild(env: Env, os1: Os, os4: Os, held: seq<Held>, seen: set<nat>, p: nat, c: nat, x: nat, root: nat)
    requires Sane(os4.procs, env.pids) && Owns(os1.procs, x, c) && Frozen(os1.procs, os4.procs, root)
    requires Known(os4, held, seen)
    ensures Settles(os4, p, c, held + [Held(c, x)], seen + {c})
  {
    hide Sane, Frozen;
    OwnsStays(os1.procs, os4.procs, x, c, root);
    var more := held + [Held(c, x)];
    assert more[|held|] == Held(c, x);
    assert forall k :: 0 <= k < |held| ==> more[k] == held[k];
    forall d | d in seen ensures exists k :: 0 <= k < |more| && more[k].pid == d {
      var k :| 0 <= k < |held| && held[k].pid == d;
      assert more[k].pid == d;
    }
    forall y: nat | y < |os4.procs| && os4.procs[y].parent == p && os4.procs[y].Alive() && os4.procs[y].pid == c
      ensures Holds(more, y)
    {
      OneOwner(os4.procs, env.pids, x, y, c);
    }
  }

  method Consider(env: Env, os: Os, held: seq<Held>, seen: set<nat>, i: nat, c: nat, ghost start: Os, ghost root: nat)
    returns (next: Os, more: seq<Held>, seen': set<nat>)
    requires Walking(env, start, os, held, root) && i < |held|
    ensures Walking(env, start, next, more, root) && Considered(env, c, held, seen, more, seen')
    ensures Keeps(env, os, next, root)
    ensures LeftAlone(env, os, next, root) && Known(os, held, seen) ==> Settles(next, held[i].id, c, more, seen')
  {
    hide Walking, Sane, Descends, Signal, Open, ParentPid, Poll, Passed, Keeps, LeftAlone, Known, Settles, Frozen;
    next, more, seen' := os, held, seen;
    WalkingIsSane(env, start, os, held, root);
    KeepsSelf(env, os, root);
    if c in seen {
      if Known(os, held, seen) {
        SeenIsHeld(env, os, held, seen, held[i].id, c);
      }
      return;
    }
    LooksPass(env, start, os, held, root, c, held[i].id);
    LooksKeep(env, os, root, c, held[i].id);
    ConsiderSettles(env, os, held, seen, i, c, root);
    var (os1, fd) := Open(env, os, c);
    next := os1;
    if fd.None? {
      return;
    }
    var (os2, parent) := ParentPid(env, os1, c);
    next := os2;
    if parent != Some(held[i].pid) {
      return;
    }
    var (os3, alive) := Poll(env, os2, held[i].id);
    next := os3;
    if !alive {
      return;
    }
    SeenPid(env, start, os1, held, root, c);
    seen' := seen + {c};
    Accepting(env, start, os, held, root, i, c);
    WalkingIsSane(env, start, os3, held, root);
    StopKeeps(env, os3, fd.value, root);
    KeepsOn(env, os, os3, Signal(env, os3, fd.value, SIGSTOP).0, root);
    var (os4, outcome) := Signal(env, os3, fd.value, SIGSTOP);
    next := os4;
    if outcome.Delivered? {
      more := held + [Held(c, fd.value)];
    }
  }

  lemma LooksKeep(env: Env, os: Os, root: nat, c: nat, p: nat)
    requires Sane(os.procs, env.pids)
    ensures var os1 := Open(env, os, c).0;
            var os2 := ParentPid(env, os1, c).0;
            var os3 := Poll(env, os2, p).0;
            && os1 == Passed(env, os) && os2 == Passed(env, os1) && os3 == Passed(env, os2)
            && Keeps(env, os, os1, root) && Keeps(env, os, os2, root) && Keeps(env, os, os3, root)
            && Keeps(env, os1, os3, root) && os.now + 1 == os1.now && os1.now + 1 == os2.now && os2.now + 1 == os3.now
  {
    hide Sane, Passed, Keeps;
    PassedTicks(env, os);
    PassedTicks(env, Passed(env, os));
    PassedTicks(env, Passed(env, Passed(env, os)));
    var os1 := Passed(env, os);
    var os2 := Passed(env, os1);
    PassedKeeps(env, os, root);
    KeepsMeans(env, os, os1, root);
    PassedKeeps(env, os1, root);
    KeepsMeans(env, os1, os2, root);
    PassedKeeps(env, os2, root);
    KeepsOn(env, os, os1, os2, root);
    KeepsOn(env, os, os2, Passed(env, os2), root);
    KeepsOn(env, os1, os2, Passed(env, os2), root);
  }

  lemma PassedTicks(env: Env, os: Os)
    ensures Passed(env, os).now == os.now + 1
  {
  }

  /** In a tree left alone, considering a pid settles it, wherever the tests end. */
  lemma ConsiderSettles(env: Env, os: Os, held: seq<Held>, seen: set<nat>, i: nat, c: nat, root: nat)
    requires Sane(os.procs, env.pids) && i < |held|
    ensures var (os1, fd) := Open(env, os, c);
            var (os2, parent) := ParentPid(env, os1, c);
            var (os3, alive) := Poll(env, os2, held[i].id);
            Known(os, held, seen) ==>
              && (fd.None? && LeftAlone(env, os, os1, root) ==> Settles(os1, held[i].id, c, held, seen))
              && (fd.Some? && parent != Some(held[i].pid) && LeftAlone(env, os, os2, root) ==>
                    Settles(os2, held[i].id, c, held, seen))
              && (fd.Some? && !alive && LeftAlone(env, os, os3, root) ==> Settles(os3, held[i].id, c, held, seen))
              && (fd.Some? && alive ==>
                    var (os4, outcome) := Signal(env, os3, fd.value, SIGSTOP);
                    LeftAlone(env, os, os4, root) ==>
                      outcome.Delivered? && Settles(os4, held[i].id, c, held + [Held(c, fd.value)], seen + {c}))
  {
    hide Sane, Passed, Keeps, LeftAlone, Known, Frozen, ChildHeld, Signal;
    LooksKeep(env, os, root, c, held[i].id);
    var (os1, fd) := Open(env, os, c);
    var (os2, parent) := ParentPid(env, os1, c);
    var (os3, alive) := Poll(env, os2, held[i].id);
    KeepsMeans(env, os, os1, root);
    KeepsMeans(env, os, os2, root);
    KeepsMeans(env, os, os3, root);
    if Known(os, held, seen) {
      if fd.None? && LeftAlone(env, os, os1, root) {
        NothingFailed(env, os, os1, root, os.now);
        UnownedChild(env, os, c, held[i].id, held);
        KnownStays(env, os, os1, held, seen, root);
      }
      if fd.Some? && parent != Some(held[i].pid) && LeftAlone(env, os, os2, root) {
        NothingFailed(env, os, os2, root, os1.now);
        KnownStays(env, os, os2, held, seen, root);
        KnownOwns(os2, held, seen, i);
        ForeignChild(env, os1, c, held[i], held);
      }
      if fd.Some? && !alive && LeftAlone(env, os, os3, root) {
        NothingFailed(env, os, os3, root, os2.now);
        KnownStays(env, os, os3, held, seen, root);
        KnownOwns(os3, held, seen, i);
        DeadParent(env, os3, c, held[i].id, held);
      }
      if fd.Some? && alive {
        SignalSettles(env, os, os1, os3, held, seen, i, c, fd.value, root);
      }
    }
  }

  lemma NothingFailed(env: Env, os: Os, next: Os, root: nat, t: nat)
    requires LeftAlone(env, os, next, root) && os.now <= t < next.now
    ensures !env.fails(t)
  {
    assert Spared(env, next.procs, root, t);
  }

  lemma KnownOwns(os: Os, held: seq<Held>, seen: set<nat>, i: nat)
    requires Known(os, held, seen) && i < |held|
    ensures Owns(os.procs, held[i].id, held[i].pid) && held[i].id < |os.procs|
  {
  }

  lemma SignalSettles(env: Env, os: Os, os1: Os, os3: Os, held: seq<Held>, seen: set<nat>, i: nat, c: nat, x: nat,
                      root: nat)
    requires Known(os, held, seen) && i < |held| && Keeps(env, os, os1, root) && Keeps(env, os1, os3, root)
    requires Owns(os1.procs, x, c)
    ensures var (os4, outcome) := Signal(env, os3, x, SIGSTOP);
            LeftAlone(env, os, os4, root) ==>
              outcome.Delivered? && Settles(os4, held[i].id, c, held + [Held(c, x)], seen + {c})
  {
    hide Sane, Keeps, LeftAlone, Known, Frozen, Signal, Settles;
    var (os4, outcome) := Signal(env, os3, x, SIGSTOP);
    KeepsMeans(env, os, os1, root);
    KeepsMeans(env, os1, os3, root);
    StopKeeps(env, os3, x, root);
    KeepsMeans(env, os3, os4, root);
    KeepsOn(env, os1, os3, os4, root);
    KeepsMeans(env, os1, os4, root);
    KeepsOn(env, os, os1, os4, root);
    KeepsMeans(env, os, os4, root);
    if LeftAlone(env, os, os4, root) {
      LeftAloneParts(env, os, os1, os4, root);
      LeftAloneParts(env, os1, os3, os4, root);
      OwnsStays(os1.procs, os3.procs, x, c, root);
      StopIsFrozen(env, os3, x, root);
      KnownStays(env, os, os4, held, seen, root);
      AcceptedChild(env, os1, os4, held, seen, held[i].id, c, x, root);
    }
  }

  lemma LooksPass(env: Env, start: Os, os: Os, held: seq<Held>, root: nat, c: nat, p: nat)
    requires Walking(env, start, os, held, root)
    ensures var os1 := Open(env, os, c).0; var os2 := ParentPid(env, os1, c).0; var os3 := Poll(env, os2, p).0;
            Walking(env, start, os1, held, root) && Walking(env, start, os2, held, root) &&
              Walking(env, start, os3, held, root)
  {
    hide Walking, Passed;
    WalkingPassed(env, start, os, held, root);
    WalkingPassed(env, start, Passed(env, os), held, root);
    WalkingPassed(env, start, Passed(env, Passed(env, os)), held, root);
  }

  /** A pid whose parent could be read is one the system hands out. */
  lemma SeenPid(env: Env, start: Os, os: Os, held: seq<Held>, root: nat, c: nat)
    requires Walking(env, start, os, held, root) && ParentPid(env, os, c).1.Some?
    ensures c < env.pids
  {
    hide Descends, HeldOk, OnlyTree, StopsHeld, DoAll;
    PassedIsAfter(env, os);
  }

  lemma Accepting(env: Env, start: Os, os: Os, held: seq<Held>, root: nat, i: nat, c: nat)
    requires Walking(env, start, os, held, root) && i < |held|
    requires var (os1, x) := Open(env, os, c); var (os2, parent) := ParentPid(env, os1, c);
             var (os3, alive) := Poll(env, os2, held[i].id);
             x.Some? && parent == Some(held[i].pid) && alive
    ensures var (os1, x) := Open(env, os, c); var os2 := ParentPid(env, os1, c).0;
            var os3 := Poll(env, os2, held[i].id).0;
            var (os4, outcome) := Signal(env, os3, x.value, SIGSTOP);
            Walking(env, start, os4, if outcome.Delivered? then held + [Held(c, x.value)] else held, root)
  {
    hide Sane, Descends, Signal, Open, ParentPid, Poll, DoAll, OnlyTree, StopsHeld;
    var (os1, x) := Open(env, os, c);
    var os2 := ParentPid(env, os1, c).0;
    var os3 := Poll(env, os2, held[i].id).0;
    var (os4, outcome) := Signal(env, os3, x.value, SIGSTOP);
    ReachedIsGenuine(env, os, c, held[i].id);
    LooksPass(env, start, os, held, root, c, held[i].id);
    SignalIsAfter(env, os3, x.value, SIGSTOP);
    HeldStays(env, os3, os4, held, root);
    if outcome.Delivered? {
      var more := held + [Held(c, x.value)];
      DescendsTransitive(os4.procs, x.value, held[i].id, root);
      assert more[|held|].id == x.value;
      assert Holds(more, x.value);
      WalkingOn(env, start, os3, os4, held, more, root);
    } else {
      WalkingOn(env, start, os3, os4, held, held, root);
    }
  }

  function Pids(n: nat): (r: set<nat>)
    ensures forall c: nat :: c in r <==> c < n
  {
    if n == 0 then {} else Pids(n - 1) + {n - 1}
  }

  /** How many pids the walk has not accepted yet. */
  function Unseen(env: Env, seen: set<nat>): nat {
    |Pids(env.pids) - seen|
  }

  lemma UnseenShrinks(env: Env, c: nat, held: seq<Held>, seen: set<nat>, more: seq<Held>, seen': set<nat>)
    requires Considered(env, c, held, seen, more, seen')
    ensures Unseen(env, seen') <= Unseen(env, seen) && (more != held ==> Unseen(env, seen') < Unseen(env, seen))
  {
    if seen' != seen {
      assert Pids(env.pids) - seen == (Pids(env.pids) - seen') + {c};
    }
  }

  /** The listed pids considered so far are settled. */
  ghost predicate SettledKids(os: Os, p: nat, kids: seq<nat>, n: nat, held: seq<Held>) {
    forall j :: 0 <= j < n <= |kids| ==> ChildHeld(os.procs, p, kids[j], held)
  }

  /** A child of a process that does not run stays held while the tree is left alone. */
  lemma ChildHeldStays(env: Env, os: Os, next: Os, p: nat, c: nat, held: seq<Held>, more: seq<Held>, root: nat)
    requires ChildHeld(os.procs, p, c, held) && held <= more && Frozen(os.procs, next.procs, root) &&
             After(env, os, next)
    requires p < |os.procs| && Descends(os.procs, p, root) && !os.procs[p].life.Running?
    ensures ChildHeld(next.procs, p, c, more)
  {
    hide Descends;
    forall x: nat | x < |next.procs| && next.procs[x].parent == p && next.procs[x].Alive() && next.procs[x].pid == c
      ensures Holds(more, x)
    {
      assert SaneAt(next.procs, x);
      assert x < |os.procs| && os.procs[x].parent == p;
      var h :| 0 <= h < |held| && held[h].id == x;
      assert more[h] == held[h];
    }
  }

  lemma SettledStay(env: Env, os: Os, next: Os, p: nat, kids: seq<nat>, n: nat, held: seq<Held>, more: seq<Held>,
                    root: nat)
    requires SettledKids(os, p, kids, n, held) && held <= more && Frozen(os.procs, next.procs, root)
    requires After(env, os, next) && p < |os.procs| && Descends(os.procs, p, root) && !os.procs[p].life.Running?
    ensures SettledKids(next, p, kids, n, more)
  {
    hide ChildHeld, Frozen, Descends, Sane;
    forall j | 0 <= j < n <= |kids| ensures ChildHeld(next.procs, p, kids[j], more) {
      ChildHeldStays(env, os, next, p, kids[j], held, more, root);
    }
  }

  /** All that a stopped process lists settled, it is closed. */
  lemma AllKidsSettled(env: Env, read: Os, os: Os, held: seq<Held>, i: nat, kids: seq<nat>, root: nat)
    requires i < |held| && held[i].id < |read.procs| && Descends(read.procs, held[i].id, root)
    requires !read.procs[held[i].id].life.Running? && kids == ChildPids(read.procs, held[i].id, |read.procs|)
    requires Frozen(read.procs, os.procs, root) && After(env, read, os) &&
             SettledKids(os, held[i].id, kids, |kids|, held)
    ensures Closed(os, held, i)
  {
    hide Descends, ChildPids;
    var p := held[i].id;
    NotRunningStays(read.procs, os.procs, p, root);
    forall x: nat | x < |os.procs| && os.procs[x].parent == p && os.procs[x].Alive() ensures Holds(held, x) {
      assert SaneAt(os.procs, x);
      assert x < |read.procs| && read.procs[x].parent == p && read.procs[x].pid in kids;
      var j :| 0 <= j < |kids| && kids[j] == read.procs[x].pid;
      assert ChildHeld(os.procs, p, kids[j], held);
    }
  }

  /** One held process: wait for it to stop, list its children, consider each. */
  method Visit(env: Env, os: Os, held: seq<Held>, seen: set<nat>, i: nat, ghost start: Os, ghost root: nat)
    returns (next: Os, more: seq<Held>, seen': set<nat>, settled: bool, readFailed: bool)
    requires Walking(env, start, os, held, root) && i < |held|
    ensures Walking(env, start, next, more, root) && held <= more && Keeps(env, os, next, root)
    ensures Unseen(env, seen') <= Unseen(env, seen) && (more != held ==> Unseen(env, seen') < Unseen(env, seen))
    ensures LeftAlone(env, os, next, root) && Known(os, held, seen) ==>
              Known(next, more, seen') && (settled ==> Closed(next, more, i))
  {
    hide Walking, Poll, Passed, Unseen, Considered, Keeps, LeftAlone, Known, Closed, Sane, Frozen, Descends, Children;
    next, more, seen', settled, readFailed := os, held, seen, true, false;
    WalkingIsSane(env, start, os, held, root);
    PollPasses(env, start, os, held, root, held[i].id);
    PollKeeps(env, os, held[i].id, root);
    var (os1, alive) := Poll(env, os, held[i].id);
    next := os1;
    WalkingIsSane(env, start, next, held, root);
    if !alive {
      NotAliveIsClosed(env, os, held, seen, i, root);
      return;
    }
    next, settled := WaitStopped(env, next, held, i, start, root);
    KeepsOn(env, os, os1, next, root);
    WalkingIsSane(env, start, next, held, root);
    ghost var waited := next;
    WalkingPassed(env, start, next, held, root);
    PassedKeeps(env, next, root);
    LookIs(env, next, held[i].pid);
    var (os0, kids) := Children(env, next, held[i].pid);
    KeepsOn(env, os, next, os0, root);
    next := os0;
    WalkingIsSane(env, start, next, held, root);
    if kids.None? {
      NothingForgotten(env, os, next, held, seen, root);
      return next, more, seen', false, true;
    }
    PollPasses(env, start, next, held, root, held[i].id);
    PollKeeps(env, next, held[i].id, root);
    var (os2, still) := Poll(env, next, held[i].id);
    KeepsOn(env, os, next, os2, root);
    next := os2;
    WalkingIsSane(env, start, next, held, root);
    if !still {
      NotStillIsClosed(env, os, os0, held, seen, i, root);
      return;
    }
    next, more, seen' := ConsiderAll(env, next, held, seen, i, kids.value, start, root);
    KeepsOn(env, os, os2, next, root);
    VisitCloses(env, os, os1, waited, os2, next, held, seen, more, seen', i, settled, kids.value, root);
  }

  /** Consider every listed pid. */
  method ConsiderAll(env: Env, os: Os, held: seq<Held>, seen: set<nat>, i: nat, kids: seq<nat>, ghost start: Os,
                     ghost root: nat)
    returns (next: Os, more: seq<Held>, seen': set<nat>)
    requires Walking(env, start, os, held, root) && i < |held|
    ensures Walking(env, start, next, more, root) && held <= more && Keeps(env, os, next, root)
    ensures Unseen(env, seen') <= Unseen(env, seen) && (more != held ==> Unseen(env, seen') < Unseen(env, seen))
    ensures LeftAlone(env, os, next, root) && Known(os, held, seen) ==> Known(next, more, seen')
    ensures LeftAlone(env, os, next, root) && Known(os, held, seen) && held[i].id < |os.procs| &&
            !os.procs[held[i].id].life.Running? ==>
              SettledKids(next, held[i].id, kids, |kids|, more)
  {
    hide Walking, Passed, Unseen, Considered, Keeps, LeftAlone, Known, Sane, Frozen, Descends, SettledKids, Settles;
    next, more, seen' := os, held, seen;
    WalkingIsSane(env, start, os, held, root);
    KeepsSelf(env, os, root);
    NoKidsYet(os, held[i].id, kids, held);
    for k := 0 to |kids|
      invariant Walking(env, start, next, more, root) && held <= more && Keeps(env, os, next, root)
      invariant Unseen(env, seen') <= Unseen(env, seen) && (more != held ==> Unseen(env, seen') < Unseen(env, seen))
      invariant LeftAlone(env, os, next, root) && Known(os, held, seen) ==> Known(next, more, seen')
      invariant LeftAlone(env, os, next, root) && Known(os, held, seen) && held[i].id < |os.procs| &&
                !os.procs[held[i].id].life.Running? ==>
                  SettledKids(next, held[i].id, kids, k, more)
    {
      ghost var os0, h0, s0 := next, more, seen';
      next, more, seen' := Consider(env, next, more, seen', i, kids[k], start, root);
      UnseenShrinks(env, kids[k], h0, s0, more, seen');
      ConsideredGrows(env, kids[k], h0, s0, more, seen');
      KeepsOn(env, os, os0, next, root);
      OneMoreKid(env, os, os0, next, held, h0, s0, more, seen', seen, i, kids, k, root);
    }
  }

  lemma NoKidsYet(os: Os, p: nat, kids: seq<nat>, held: seq<Held>)
    ensures SettledKids(os, p, kids, 0, held)
  {
  }

  lemma OneMoreKid(env: Env, os: Os, os0: Os, next: Os, held: seq<Held>, h0: seq<Held>, s0: set<nat>, more: seq<Held>,
                   seen': set<nat>, seen: set<nat>, i: nat, kids: seq<nat>, k: nat, root: nat)
    requires i < |held| && held <= h0 <= more && k < |kids| && Keeps(env, os, os0, root) && Keeps(env, os0, next, root)
    requires held[i].id < |os.procs| && Descends(os.procs, held[i].id, root)
    requires LeftAlone(env, os, os0, root) && Known(os, held, seen) ==> Known(os0, h0, s0)
    requires LeftAlone(env, os, os0, root) && Known(os, held, seen) && !os.procs[held[i].id].life.Running? ==>
               SettledKids(os0, held[i].id, kids, k, h0)
    requires LeftAlone(env, os0, next, root) && Known(os0, h0, s0) ==> Settles(next, held[i].id, kids[k], more, seen')
    ensures LeftAlone(env, os, next, root) && Known(os, held, seen) ==> Known(next, more, seen')
    ensures LeftAlone(env, os, next, root) && Known(os, held, seen) && !os.procs[held[i].id].life.Running? ==>
              SettledKids(next, held[i].id, kids, k + 1, more)
  {
    hide Sane, Frozen, Descends, LeftAlone, Keeps, Known, ChildHeld;
    var p := held[i].id;
    KeepsMeans(env, os, os0, root);
    KeepsMeans(env, os0, next, root);
    if LeftAlone(env, os, next, root) && Known(os, held, seen) {
      LeftAloneParts(env, os, os0, next, root);
      if !os.procs[p].life.Running? {
        NotRunningStays(os.procs, os0.procs, p, root);
        DescendsStays(os.procs, os0.procs, p, root);
        SettledStay(env, os0, next, p, kids, k, h0, more, root);
      }
    }
  }

  lemma PollKeeps(env: Env, os: Os, id: nat, root: nat)
    requires Sane(os.procs, env.pids)
    ensures Keeps(env, os, Poll(env, os, id).0, root) && Poll(env, os, id).0 == Passed(env, os)
  {
    hide Sane, Passed, Keeps;
    PassedKeeps(env, os, root);
  }

  lemma NothingForgotten(env: Env, os: Os, next: Os, held: seq<Held>, seen: set<nat>, root: nat)
    requires Keeps(env, os, next, root)
    ensures LeftAlone(env, os, next, root) && Known(os, held, seen) ==> Known(next, held, seen)
  {
    hide Sane, Frozen, LeftAlone, Known;
    if LeftAlone(env, os, next, root) && Known(os, held, seen) {
      KnownStays(env, os, next, held, seen, root);
    }
  }

  /** A held process that does not poll alive is dead, in a tree left alone. */
  lemma NotAliveIsClosed(env: Env, os: Os, held: seq<Held>, seen: set<nat>, i: nat, root: nat)
    requires Sane(os.procs, env.pids) && i < |held| && !Poll(env, os, held[i].id).1
    ensures var next := Poll(env, os, held[i].id).0;
            LeftAlone(env, os, next, root) && Known(os, held, seen) ==> Known(next, held, seen) && Closed(next, held, i)
  {
    hide Sane, Frozen, LeftAlone, Known, Closed, Passed;
    var next := Passed(env, os);
    PassedKeeps(env, os, root);
    PassedTicks(env, os);
    if LeftAlone(env, os, next, root) && Known(os, held, seen) {
      NothingFailed(env, os, next, root, os.now);
      KnownStays(env, os, next, held, seen, root);
      KnownOwns(next, held, seen, i);
      DeadAreClosed(env, next, held, i);
    }
  }

  lemma NotStillIsClosed(env: Env, os: Os, os0: Os, held: seq<Held>, seen: set<nat>, i: nat, root: nat)
    requires Keeps(env, os, os0, root) && i < |held| && !Poll(env, os0, held[i].id).1
    ensures var next := Poll(env, os0, held[i].id).0;
            LeftAlone(env, os, next, root) && Known(os, held, seen) ==> Known(next, held, seen) && Closed(next, held, i)
  {
    hide Sane, Frozen, LeftAlone, Known, Closed, Passed, Keeps;
    KeepsMeans(env, os, os0, root);
    var next := Passed(env, os0);
    PassedKeeps(env, os0, root);
    KeepsMeans(env, os0, next, root);
    if LeftAlone(env, os, next, root) && Known(os, held, seen) {
      LeftAloneParts(env, os, os0, next, root);
      KnownStays(env, os, os0, held, seen, root);
      NotAliveIsClosed(env, os0, held, seen, i, root);
    }
  }

  /** A process seen stopped whose listed pids are all settled is closed. */
  lemma VisitCloses(env: Env, os: Os, os1: Os, waited: Os, os2: Os, next: Os, held: seq<Held>, seen: set<nat>,
                    more: seq<Held>, seen': set<nat>, i: nat, settled: bool, kids: seq<nat>, root: nat)
    requires Keeps(env, os, os1, root) && Keeps(env, os1, waited, root) && Keeps(env, os2, next, root) && i < |held|
    requires os2 == Passed(env, Passed(env, waited)) && held <= more &&
             Children(env, waited, held[i].pid).1 == Some(kids)
    requires held[i].id < |waited.procs| && Descends(waited.procs, held[i].id, root)
    requires settled && LeftAlone(env, os1, waited, root) && Owns(os1.procs, held[i].id, held[i].pid) ==>
               !waited.procs[held[i].id].life.Running?
    requires LeftAlone(env, os2, next, root) && Known(os2, held, seen) ==> Known(next, more, seen')
    requires LeftAlone(env, os2, next, root) && Known(os2, held, seen) && held[i].id < |os2.procs| &&
             !os2.procs[held[i].id].life.Running? ==>
               SettledKids(next, held[i].id, kids, |kids|, more)
    ensures LeftAlone(env, os, next, root) && Known(os, held, seen) ==>
              Known(next, more, seen') && (settled ==> Closed(next, more, i))
  {
    hide Sane, Frozen, LeftAlone, Keeps, Known, Closed, SettledKids, Passed, Descends, Children;
    var read := Passed(env, waited);
    KeepsMeans(env, os, os1, root);
    KeepsMeans(env, os1, waited, root);
    PassedKeeps(env, waited, root);
    KeepsMeans(env, waited, read, root);
    PassedKeeps(env, read, root);
    KeepsMeans(env, read, os2, root);
    KeepsMeans(env, os2, next, root);
    KeepsOn(env, waited, read, os2, root);
    KeepsOn(env, waited, os2, next, root);
    KeepsOn(env, read, os2, next, root);
    KeepsOn(env, os1, waited, next, root);
    KeepsMeans(env, waited, os2, root);
    KeepsMeans(env, waited, next, root);
    KeepsMeans(env, read, next, root);
    KeepsMeans(env, os1, next, root);
    if LeftAlone(env, os, next, root) && Known(os, held, seen) {
      LeftAloneParts(env, os, os1, next, root);
      LeftAloneParts(env, os1, waited, next, root);
      LeftAloneParts(env, waited, os2, next, root);
      LeftAloneParts(env, waited, read, next, root);
      KnownStays(env, os, os1, held, seen, root);
      KnownStays(env, os1, waited, held, seen, root);
      KnownStays(env, waited, os2, held, seen, root);
      if settled {
        KnownOwns(os1, held, seen, i);
        KnownOwns(waited, held, seen, i);
        NotRunningStays(waited.procs, read.procs, held[i].id, root);
        DescendsStays(waited.procs, read.procs, held[i].id, root);
        NotRunningStays(waited.procs, os2.procs, held[i].id, root);
        OwnsStays(waited.procs, read.procs, held[i].id, held[i].pid, root);
        ChildrenAre(env, waited, held[i]);
        AllKidsSettled(env, read, next, more, i, kids, root);
      }
    }
  }

  lemma ChildrenAre(env: Env, os: Os, h: Held)
    requires Sane(Passed(env, os).procs, env.pids) && Owns(Passed(env, os).procs, h.id, h.pid)
    requires !Passed(env, os).procs[h.id].life.Running? && Children(env, os, h.pid).1.Some?
    ensures Children(env, os, h.pid).1.value == ChildPids(Passed(env, os).procs, h.id, |Passed(env, os).procs|)
  {
    hide Sane, Passed;
    var ps := Passed(env, os).procs;
    OneOwner(ps, env.pids, Owner(ps, h.pid, |ps|).value, h.id, h.pid);
  }

  lemma ConsideredGrows(env: Env, c: nat, held: seq<Held>, seen: set<nat>, more: seq<Held>, seen': set<nat>)
    requires Considered(env, c, held, seen, more, seen')
    ensures held <= more
  {
  }

  lemma PollPasses(env: Env, start: Os, os: Os, held: seq<Held>, root: nat, id: nat)
    requires Walking(env, start, os, held, root)
    ensures Walking(env, start, Poll(env, os, id).0, held, root) && Poll(env, os, id).0.sent == os.sent
  {
    hide Walking;
    WalkingPassed(env, start, os, held, root);
  }

  ghost predicate ClosedUpTo(os: Os, held: seq<Held>, n: nat) {
    forall k :: 0 <= k < n ==> Closed(os, held, k)
  }

  /** What a stretch of the walk knows at its end, if the tree was left alone in it. */
  ghost predicate Learns(env: Env, os: Os, held: seq<Held>, seen: set<nat>, next: Os, more: seq<Held>, seen': set<nat>,
                         settled: bool, n: nat, root: nat) {
    && Keeps(env, os, next, root)
    && (LeftAlone(env, os, next, root) && Known(os, held, seen) ==>
          Known(next, more, seen') && (settled ==> ClosedUpTo(next, more, n)))
  }

  lemma NothingLearnt(env: Env, os: Os, held: seq<Held>, seen: set<nat>, root: nat)
    requires Sane(os.procs, env.pids)
    ensures Learns(env, os, held, seen, os, held, seen, true, 0, root)
    ensures Learns(env, os, held, seen, os, held, seen, false, |held|, root)
  {
    hide Sane, Known, LeftAlone, Keeps;
    KeepsSelf(env, os, root);
  }

  /** One more held process visited. */
  lemma LearnsOne(env: Env, os: Os, held: seq<Held>, seen: set<nat>, mid: Os, h0: seq<Held>, s0: set<nat>,
                  settled: bool,
                  i: nat, next: Os, more: seq<Held>, seen': set<nat>, ok: bool, root: nat)
    requires Learns(env, os, held, seen, mid, h0, s0, settled, i, root) && i < |h0| && h0 <= more
    requires Keeps(env, mid, next, root)
    requires LeftAlone(env, mid, next, root) && Known(mid, h0, s0) ==>
               Known(next, more, seen') && (ok ==> Closed(next, more, i))
    requires forall k :: 0 <= k < |h0| ==> h0[k].id < |mid.procs| && Descends(mid.procs, h0[k].id, root)
    ensures Learns(env, os, held, seen, next, more, seen', settled && ok, i + 1, root)
  {
    hide Sane, Frozen, Descends, LeftAlone, Keeps, Known, Closed;
    KeepsOn(env, os, mid, next, root);
    KeepsMeans(env, os, mid, root);
    KeepsMeans(env, mid, next, root);
    if LeftAlone(env, os, next, root) && Known(os, held, seen) {
      LeftAloneParts(env, os, mid, next, root);
      if settled && ok {
        forall k | 0 <= k < i ensures Closed(next, more, k) {
          ClosedStays(env, mid, next, h0, more, k, root);
        }
      }
    }
  }

  /** One pass. `held` grows while it runs, and it ends because no pid is accepted twice. A settled pass over a tree
      left
      alone leaves every held process closed. */
  method Pass(env: Env, os: Os, held: seq<Held>, seen: set<nat>, ghost start: Os, ghost root: nat)
    returns (next: Os, more: seq<Held>, seen': set<nat>, settled: bool, readFailed: bool)
    requires Walking(env, start, os, held, root)
    ensures Walking(env, start, next, more, root) && held <= more
    ensures Learns(env, os, held, seen, next, more, seen', settled, |more|, root)
  {
    hide Walking, Unseen, Learns, Sane, Descends, Keeps, LeftAlone, Known, Closed;
    next, more, seen', settled, readFailed := os, held, seen, true, false;
    WalkingIsSane(env, start, os, held, root);
    NothingLearnt(env, os, held, seen, root);
    var i := 0;
    while i < |more|
      invariant Walking(env, start, next, more, root) && held <= more && 0 <= i <= |more|
      invariant Learns(env, os, held, seen, next, more, seen', settled, i, root)
      decreases Unseen(env, seen'), |more| - i
    {
      var ok, failed;
      ghost var mid, h0, s0 := next, more, seen';
      WalkingIsSane(env, start, next, more, root);
      next, more, seen', ok, failed := Visit(env, next, more, seen', i, start, root);
      LearnsOne(env, os, held, seen, mid, h0, s0, settled, i, next, more, seen', ok, root);
      settled := settled && ok;
      readFailed := readFailed || failed;
      i := i + 1;
    }
  }

  /** `heldStillStopped`: every held process that lives is still stopped. */
  method HeldStillStopped(env: Env, os: Os, held: seq<Held>, ghost start: Os, ghost root: nat)
    returns (next: Os, still: bool)
    requires Walking(env, start, os, held, root)
    ensures Walking(env, start, next, held, root) && Keeps(env, os, next, root)
  {
    hide Walking, Poll, Passed, Sane, Descends, Keeps, AllStopped;
    next := os;
    WalkingIsSane(env, start, os, held, root);
    KeepsSelf(env, os, root);
    for k := 0 to |held|
      invariant Walking(env, start, next, held, root) && Keeps(env, os, next, root)
    {
      WalkingIsSane(env, start, next, held, root);
      WalkingPassed(env, start, next, held, root);
      PassedKeeps(env, next, root);
      LookIs(env, next, held[k].pid);
      var (os1, stopped) := AllStopped(env, next, held[k].pid);
      KeepsOn(env, os, next, os1, root);
      next := os1;
      if !stopped {
        WalkingIsSane(env, start, next, held, root);
        PollPasses(env, start, next, held, root, held[k].id);
        PollKeeps(env, next, held[k].id, root);
        var (os2, alive) := Poll(env, next, held[k].id);
        KeepsOn(env, os, next, os2, root);
        next := os2;
        if alive {
          return next, false;
        }
      }
    }
    still := true;
  }

  /** Passes until one finds nothing new and settles, and its finds are still stopped, or time is up. */
  method Walk(env: Env, os: Os, first: Held, ghost start: Os, ghost root: nat)
    returns (next: Os, held: seq<Held>, exit: bool)
    requires Walking(env, start, os, [first], root)
    ensures Walking(env, start, next, held, root) && Keeps(env, os, next, root)
    ensures exit && LeftAlone(env, os, next, root) && Known(os, [first], {first.pid}) ==>
              ClosedUpTo(next, held, |held|)
  {
    hide Walking, Learns, Sane, Descends, Keeps, LeftAlone, Known, ClosedUpTo;
    next, held, exit := os, [first], false;
    var seen := {first.pid};
    WalkingIsSane(env, start, os, held, root);
    NothingLearnt(env, os, held, seen, root);
    ghost var seen0 := seen;
    var pass := 1;
    while pass <= env.passes
      invariant Walking(env, start, next, held, root)
      invariant Learns(env, os, [first], seen0, next, held, seen, false, |held|, root)
    {
      var count := |held|;
      var settled, readFailed;
      ghost var mid, h0, s0 := next, held, seen;
      next, held, seen, settled, readFailed := Pass(env, next, held, seen, start, root);
      LearnsOn(env, os, [first], seen0, mid, h0, s0, next, held, seen, settled, root);
      if |held| == count && settled && pass >= 2 {
        var still;
        ghost var passed := next;
        WalkingIsSane(env, start, next, held, root);
        next, still := HeldStillStopped(env, next, held, start, root);
        LearnsLater(env, os, [first], seen0, passed, held, seen, settled, next, root);
        if still {
          exit := true;
          LearnsMeans(env, os, [first], seen0, next, held, seen, settled, root);
          return;
        }
      }
      pass := pass + 1;
    }
    LearnsMeans(env, os, [first], seen0, next, held, seen, false, root);
  }

  lemma LearnsMeans(env: Env, os: Os, held: seq<Held>, seen: set<nat>, next: Os, more: seq<Held>, seen': set<nat>,
                    settled: bool, root: nat)
    requires Learns(env, os, held, seen, next, more, seen', settled, |more|, root)
    ensures Keeps(env, os, next, root)
    ensures settled && LeftAlone(env, os, next, root) && Known(os, held, seen) ==> ClosedUpTo(next, more, |more|)
  {
    hide Keeps, LeftAlone, Known, ClosedUpTo;
  }

  /** A pass on top of what was known. */
  lemma LearnsOn(env: Env, os: Os, held: seq<Held>, seen: set<nat>, mid: Os, h0: seq<Held>, s0: set<nat>, next: Os,
                 more: seq<Held>, seen': set<nat>, settled: bool, root: nat)
    requires Learns(env, os, held, seen, mid, h0, s0, false, |h0|, root)
    requires Learns(env, mid, h0, s0, next, more, seen', settled, |more|, root)
    ensures Learns(env, os, held, seen, next, more, seen', settled, |more|, root)
    ensures Learns(env, os, held, seen, next, more, seen', false, |more|, root)
  {
    hide Keeps, LeftAlone, Known, ClosedUpTo, Sane, Frozen;
    KeepsOn(env, os, mid, next, root);
    KeepsMeans(env, os, mid, root);
    KeepsMeans(env, mid, next, root);
    if LeftAlone(env, os, next, root) && Known(os, held, seen) {
      LeftAloneParts(env, os, mid, next, root);
    }
  }

  /** Time passes on top of what was known. */
  lemma LearnsLater(env: Env, os: Os, held: seq<Held>, seen: set<nat>, mid: Os, more: seq<Held>, seen': set<nat>,
                    settled: bool, next: Os, root: nat)
    requires Learns(env, os, held, seen, mid, more, seen', settled, |more|, root) && Keeps(env, mid, next, root)
    requires forall k :: 0 <= k < |more| ==> more[k].id < |mid.procs| && Descends(mid.procs, more[k].id, root)
    ensures Learns(env, os, held, seen, next, more, seen', settled, |more|, root)
    ensures Learns(env, os, held, seen, next, more, seen', false, |more|, root)
  {
    hide Keeps, LeftAlone, Known, Closed, Sane, Frozen, Descends;
    KeepsOn(env, os, mid, next, root);
    KeepsMeans(env, os, mid, root);
    KeepsMeans(env, mid, next, root);
    if LeftAlone(env, os, next, root) && Known(os, held, seen) {
      LeftAloneParts(env, os, mid, next, root);
      KnownStays(env, mid, next, more, seen', root);
      if settled {
        forall k | 0 <= k < |more| ensures Closed(next, more, k) {
          ClosedStays(env, mid, next, more, more, k, root);
        }
      }
    }
  }

  // ----- Killing what is held -----

  /** `signalRoot`: a signal refused to the root's pidfd kills the root without it. */
  method SignalRoot(env: Env, os: Os, held: seq<Held>, root: nat, sig: Sig, ghost start: Os) returns (next: Os,
      sent: bool)
    requires Walking(env, start, os, held, root) && root != INIT
    ensures Walking(env, start, next, held, root)
    ensures |next.sent| > |os.sent| && next.sent[|os.sent|].id == root && next.sent[|os.sent|].sig == sig &&
            os.sent <= next.sent
    ensures After(env, os, next) && root < |next.procs|
    ensures sig.SIGKILL? ==> !next.procs[root].Alive() || FallbackFailed(next, |os.sent|, root)
    ensures sent ==> !next.procs[root].life.Reaped?
    ensures !next.sent[|os.sent|].outcome.Fallback? && (sent <==> next.sent[|os.sent|].outcome.Delivered?)
    ensures forall k :: |os.sent| < k < |next.sent| ==>
            next.sent[k].id == root && next.sent[k].sig.SIGKILL? && next.sent[k].outcome.Fallback?
  {
    hide Sane, Descends, Signal, KillRoot, OnlyTree, StopsHeld;
    assert held[0].id == root;
    WalkingSignal(env, start, os, held, root, 0, sig);
    SignalIsAfter(env, os, root, sig);
    ReachedIsThere(env, os, root, sig);
    var (os1, outcome) := Signal(env, os, root, sig);
    next := os1;
    if outcome.Refused? {
      KillRootIsAfter(env, os1, root);
      next := KillRoot(env, os1, root);
      assert next.sent[|os.sent| + 1] == Sent(root, SIGKILL, Fallback(env.fails(os1.now)));
      AfterTransitive(env, os, os1, next);
      HeldStays(env, os1, next, held, root);
      WalkingOn(env, start, os1, next, held, held, root);
    }
    sent := outcome.Delivered?;
  }

  /** A held process is dead, or its SIGKILL was refused; the root is dead, or its own handle failed as well. */
  ghost predicate Finished(os: Os, from: nat, id: nat, root: nat) {
    && id < |os.procs|
    && (!os.procs[id].Alive() || if id == root then FallbackFailed(os, from, id) else KillRefused(os, from, id))
  }

  ghost predicate KillRefused(os: Os, from: nat, id: nat) {
    exists k :: from <= k < |os.sent| && os.sent[k] == Sent(id, SIGKILL, Refused)
  }

  ghost predicate FallbackFailed(os: Os, from: nat, root: nat) {
    exists k :: from <= k < |os.sent| && os.sent[k] == Sent(root, SIGKILL, Fallback(true))
  }

  ghost predicate KillSent(os: Os, from: nat, id: nat) {
    exists k :: from <= k < |os.sent| && os.sent[k].id == id && os.sent[k].sig.SIGKILL?
  }

  lemma FinishedStays(env: Env, os: Os, next: Os, from: nat, id: nat, root: nat)
    requires After(env, os, next) && Finished(os, from, id, root) && KillSent(os, from, id)
    ensures Finished(next, from, id, root) && KillSent(next, from, id)
  {
    hide Sane;
    var k :| from <= k < |os.sent| && os.sent[k].id == id && os.sent[k].sig.SIGKILL?;
    assert next.sent[k] == os.sent[k];
    if KillRefused(os, from, id) {
      var l :| from <= l < |os.sent| && os.sent[l] == Sent(id, SIGKILL, Refused);
      assert next.sent[l] == os.sent[l];
    }
    if FallbackFailed(os, from, id) {
      var l :| from <= l < |os.sent| && os.sent[l] == Sent(id, SIGKILL, Fallback(true));
      assert next.sent[l] == os.sent[l];
    }
  }

  /** The held processes from the i-th on have been dealt with, the last discovered first. */
  ghost predicate Dealt(env: Env, os: Os, next: Os, held: seq<Held>, i: nat, root: nat) {
    && After(env, os, next) && i <= |held|
    && (forall k :: i <= k < |held| ==>
        Finished(next, |os.sent|, held[k].id, root) && KillSent(next, |os.sent|, held[k].id))
    && PidfdKills(next.sent[|os.sent|..]) == LastFirst(held, i)
    && (forall k :: |os.sent| <= k < |next.sent| ==> next.sent[k].sig.SIGKILL?)
  }

  lemma DealtStays(env: Env, os: Os, mid: Os, next: Os, held: seq<Held>, i: nat, root: nat)
    requires Dealt(env, os, mid, held, i, root) && After(env, mid, next) && next.sent == mid.sent
    ensures Dealt(env, os, next, held, i, root)
  {
    hide Sane, Finished, KillSent, PidfdKills, LastFirst;
    AfterTransitive(env, os, mid, next);
    forall k | i <= k < |held| ensures Finished(next, |os.sent|, held[k].id, root) &&
        KillSent(next, |os.sent|, held[k].id) {
      FinishedStays(env, mid, next, |os.sent|, held[k].id, root);
    }
  }

  /** One more process is dealt with by a SIGKILL, and the fallback if it is the root. */
  lemma DealtOne(env: Env, os: Os, mid: Os, next: Os, held: seq<Held>, i: nat, root: nat)
    requires i < |held| && Dealt(env, os, mid, held, i + 1, root) && After(env, mid, next)
    requires |next.sent| > |mid.sent| && next.sent[|mid.sent|].id == held[i].id &&
             !next.sent[|mid.sent|].outcome.Fallback?
    requires forall k :: |mid.sent| <= k < |next.sent| ==> next.sent[k].sig.SIGKILL?
    requires forall k :: |mid.sent| < k < |next.sent| ==> next.sent[k].outcome.Fallback?
    requires Finished(next, |mid.sent|, held[i].id, root)
    ensures Dealt(env, os, next, held, i, root)
  {
    hide Sane, PidfdKills, LastFirst;
    AfterTransitive(env, os, mid, next);
    forall k | i <= k < |held| ensures Finished(next, |os.sent|, held[k].id, root) &&
        KillSent(next, |os.sent|, held[k].id) {
      if k > i {
        FinishedStays(env, mid, next, |os.sent|, held[k].id, root);
      }
    }
    var x, y := mid.sent[|os.sent|..], next.sent[|mid.sent|..];
    assert next.sent[|os.sent|..] == x + y;
    PidfdKillsOne(x, y, held[i].id);
    LastFirstStep(held, i);
  }

  lemma LastFirstStep(held: seq<Held>, i: nat)
    requires i < |held|
    ensures LastFirst(held, i) == LastFirst(held, i + 1) + [held[i].id]
  {
  }

  /** The pidfd signals of `killHeld`, in the order they were sent. */
  function PidfdKills(sent: seq<Sent>): seq<nat> {
    if sent == [] then []
    else
      var last := sent[|sent| - 1];
      PidfdKills(sent[..|sent| - 1]) + if last.outcome.Fallback? then [] else [last.id]
  }

  function LastFirst(held: seq<Held>, i: nat): seq<nat>
    requires i <= |held|
    decreases |held| - i
  {
    if i == |held| then [] else LastFirst(held, i + 1) + [held[i].id]
  }

  lemma {:induction false} PidfdKillsOne(a: seq<Sent>, b: seq<Sent>, id: nat)
    requires |b| > 0 && b[0].id == id && !b[0].outcome.Fallback? && (forall k :: 0 < k < |b| ==> b[k].outcome.Fallback?)
    ensures PidfdKills(a + b) == PidfdKills(a) + [id]
    decreases |b|
  {
    if |b| == 1 {
      assert (a + b)[..|a + b| - 1] == a;
    } else {
      var c := b[..|b| - 1];
      PidfdKillsOne(a, c, id);
      assert (a + b)[..|a + b| - 1] == a + c;
      assert (a + b)[|a + b| - 1] == b[|b| - 1];
    }
  }

  /** `killHeld`: every held process is sent SIGKILL, the last discovered first. */
  method KillHeld(env: Env, os: Os, held: seq<Held>, root: nat, ghost start: Os) returns (next: Os)
    requires Walking(env, start, os, held, root) && root != INIT
    ensures Walking(env, start, next, held, root) && Dealt(env, os, next, held, 0, root)
  {
    hide Walking, Passed, Dealt;
    next := os;
    var i: nat := |held|;
    NothingDealt(env, start, os, held, root);
    while i > 0
      invariant 0 <= i <= |held| && Walking(env, start, next, held, root) && Dealt(env, os, next, held, i, root)
    {
      i := i - 1;
      next := KillOne(env, os, next, held, i, root, start);
    }
    for k := 0 to |held|
      invariant Walking(env, start, next, held, root) && Dealt(env, os, next, held, 0, root)
    {
      WalkingPassed(env, start, next, held, root);
      WaitKeeps(env, start, os, next, held, root);
      next := Passed(env, next);
    }
  }

  lemma NothingDealt(env: Env, start: Os, os: Os, held: seq<Held>, root: nat)
    requires Walking(env, start, os, held, root)
    ensures Dealt(env, os, os, held, |held|, root)
  {
    assert os.sent[|os.sent|..] == [];
  }

  lemma WaitKeeps(env: Env, start: Os, os: Os, mid: Os, held: seq<Held>, root: nat)
    requires Walking(env, start, mid, held, root) && Dealt(env, os, mid, held, 0, root)
    ensures Dealt(env, os, Passed(env, mid), held, 0, root)
  {
    hide Sane, HeldOk, OnlyTree, StopsHeld, Dealt, DoAll, Passed;
    PassedIsAfter(env, mid);
    DealtStays(env, os, mid, Passed(env, mid), held, 0, root);
  }

  method KillOne(env: Env, os: Os, mid: Os, held: seq<Held>, i: nat, root: nat, ghost start: Os) returns (next: Os)
    requires i < |held| && Walking(env, start, mid, held, root) && root != INIT &&
             Dealt(env, os, mid, held, i + 1, root)
    ensures Walking(env, start, next, held, root) && Dealt(env, os, next, held, i, root)
  {
    hide Walking, Signal, Dealt, Sane;
    HeldIsThere(env, start, mid, held, i, root);
    if held[i].id == root {
      var sent;
      next, sent := SignalRoot(env, mid, held, root, SIGKILL, start);
    } else {
      WalkingSignal(env, start, mid, held, root, i, SIGKILL);
      SignalIsAfter(env, mid, held[i].id, SIGKILL);
      next := Signal(env, mid, held[i].id, SIGKILL).0;
    }
    DealtOne(env, os, mid, next, held, i, root);
  }

  lemma HeldIsThere(env: Env, start: Os, os: Os, held: seq<Held>, i: nat, root: nat)
    requires Walking(env, start, os, held, root) && i < |held| && root != INIT
    ensures held[i].id < |os.procs| && held[i].id != INIT && Sane(os.procs, env.pids)
  {
    hide Sane, OnlyTree, StopsHeld, Descends;
    DescendantsComeLater(os.procs, held[i].id, root);
  }

  lemma {:induction false} DescendantsComeLater(ps: Procs, c: nat, a: nat)
    requires Descends(ps, c, a)
    ensures a <= c
    decreases c
  {
    if c != a {
      DescendantsComeLater(ps, ps[c].maker, a);
    }
  }

  // ----- The kill -----

  /** What a kill promises over every schedule of the system and every failure: signals reach only the root and its
      descendants, and whoever was stopped is sent SIGKILL afterwards and is dead unless that was refused. */
  ghost predicate Killed(start: Os, os: Os, root: nat) {
    && OnlyTree(os, |start.sent|, root)
    && forall k :: |start.sent| <= k < |os.sent| && IsStop(os.sent[k]) ==>
         KillSent(os, k + 1, os.sent[k].id) && Finished(os, k + 1, os.sent[k].id, root)
  }

  /** Between `from` and `walked` the walk went on to a settled exit. If the tree was left alone in that time, whoever
      lives in it at the exit is sent SIGKILL and is dead in the end unless that was refused. */
  ghost predicate WholeTreeKilled(env: Env, from: Os, walked: Os, next: Os, root: nat) {
    LeftAlone(env, from, walked, root) ==>
      forall c: nat :: c < |walked.procs| && walked.procs[c].Alive() && Below(walked.procs, c, root) ==>
        KillSent(next, |walked.sent|, c) && Finished(next, |walked.sent|, c, root)
  }

  /** `killTree`. */
  method KillTree(env: Env, os: Os, rootPid: nat, root: nat)
    returns (next: Os, ghost from: Os, ghost walked: Os, settled: bool)
    requires Sane(os.procs, env.pids) && INIT != root < |os.procs| && os.procs[root].pid == rootPid
    ensures After(env, os, next) && Killed(os, next, root)
    ensures forall k :: |os.sent| <= k < |next.sent| && IsStop(next.sent[k]) ==> Finished(next, k + 1, root, root)
    ensures settled ==> After(env, os, from) && After(env, from, walked) && After(env, walked, next)
    ensures settled ==> WholeTreeKilled(env, from, walked, next, root)
  {
    hide Sane, Descends, Walking, Poll, Killed, WholeTreeKilled, Keeps, Known, ClosedUpTo, After, LeftAlone, Dealt;
    var held := [Held(rootPid, root)];
    StartsWalking(env, os, rootPid, root);
    PollPasses(env, os, os, held, root, root);
    var (os1, alive) := Poll(env, os, root);
    NothingStopped(env, os, os1, held, root);
    from, walked, settled := os, os, false;
    if !alive {
      next := os1;
      return;
    }
    var sent;
    next, sent := SignalRoot(env, os1, held, root, SIGSTOP, os);
    NothingStopped(env, os, next, held, root);
    if !sent {
      return;
    }
    from := next;
    RootIsKnown(env, os, from, rootPid, root);
    next, held, settled := Walk(env, next, held[0], os, root);
    KeepsMeans(env, from, next, root);
    walked := next;
    next := KillHeld(env, next, held, root, os);
    AllDealt(env, os, walked, next, held, root);
    WholeTreeDealt(env, os, from, walked, next, held, root, settled);
  }

  /** A root just stopped owns its pid. */
  lemma RootIsKnown(env: Env, start: Os, os: Os, rootPid: nat, root: nat)
    requires Walking(env, start, os, [Held(rootPid, root)], root) && root < |os.procs| && !os.procs[root].life.Reaped?
    ensures Known(os, [Held(rootPid, root)], {rootPid})
  {
    hide Sane, Descends, OnlyTree, StopsHeld;
    var held := [Held(rootPid, root)];
    assert held[0].pid == rootPid && held[0].id == root;
  }

  lemma WholeTreeDealt(env: Env, start: Os, from: Os, walked: Os, next: Os, held: seq<Held>, root: nat, settled: bool)
    requires Walking(env, start, walked, held, root) && Dealt(env, walked, next, held, 0, root)
    requires settled && LeftAlone(env, from, walked, root) ==> ClosedUpTo(walked, held, |held|)
    ensures After(env, walked, next) && (settled ==> WholeTreeKilled(env, from, walked, next, root))
  {
    hide Sane, Descends, OnlyTree, StopsHeld, LeftAlone, PidfdKills, LastFirst, Finished, KillSent, Closed;
    if settled && LeftAlone(env, from, walked, root) {
      forall c: nat | c < |walked.procs| && walked.procs[c].Alive() && Below(walked.procs, c, root)
        ensures KillSent(next, |walked.sent|, c) && Finished(next, |walked.sent|, c, root)
      {
        WholeTree(env, walked, held, root, c);
        var k :| 0 <= k < |held| && held[k].id == c;
        assert Finished(next, |walked.sent|, held[k].id, root) && KillSent(next, |walked.sent|, held[k].id);
      }
    }
  }

  lemma StartsWalking(env: Env, os: Os, rootPid: nat, root: nat)
    requires Sane(os.procs, env.pids) && root < |os.procs| && os.procs[root].pid == rootPid
    ensures Walking(env, os, os, [Held(rootPid, root)], root)
  {
    hide Sane;
  }

  lemma NothingStopped(env: Env, start: Os, os: Os, held: seq<Held>, root: nat)
    requires Walking(env, start, os, held, root)
    ensures After(env, start, os)
    ensures (forall k :: |start.sent| <= k < |os.sent| ==> !IsStop(os.sent[k])) ==> Killed(start, os, root)
  {
    hide Sane, Descends, HeldOk, StopsHeld;
  }

  lemma AllDealt(env: Env, start: Os, walked: Os, os: Os, held: seq<Held>, root: nat)
    requires Walking(env, start, walked, held, root) && Walking(env, start, os, held, root) &&
             Dealt(env, walked, os, held, 0, root)
    ensures After(env, start, os) && Killed(start, os, root)
    ensures forall k :: |start.sent| <= k < |os.sent| && IsStop(os.sent[k]) ==> Finished(os, k + 1, root, root)
  {
    hide Sane, Descends, PidfdKills, LastFirst, OnlyTree;
    assert Finished(os, |walked.sent|, held[0].id, root);
    forall k | |start.sent| <= k < |os.sent| && IsStop(os.sent[k])
      ensures KillSent(os, k + 1, os.sent[k].id) && Finished(os, k + 1, os.sent[k].id, root)
    {
      assert k < |walked.sent|;
      var h :| 0 <= h < |held| && held[h].id == os.sent[k].id;
      FinishedEarlier(os, |walked.sent|, k + 1, held[h].id, root);
    }
    forall k | |start.sent| <= k < |os.sent| && IsStop(os.sent[k]) ensures Finished(os, k + 1, root, root) {
      assert k < |walked.sent|;
      FinishedEarlier(os, |walked.sent|, k + 1, root, root);
    }
  }

  lemma FinishedEarlier(os: Os, from: nat, earlier: nat, id: nat, root: nat)
    requires earlier <= from && Finished(os, from, id, root) && KillSent(os, from, id)
    ensures Finished(os, earlier, id, root) && KillSent(os, earlier, id)
  {
  }

  // ----- The killer of one run -----

  /** Nobody else waits for the root, so it still owns its pid at the next moment. */
  predicate Unreaped(env: Env, os: Os, root: nat) {
    var ps := Passed(env, os).procs; root < |ps| && !ps[root].life.Reaped?
  }

  /** `hostKiller`: a cancel may come before the root's pidfd is there; it is then kept until it is. */
  class HostKiller {
    const env: Env
    const root: nat
    var os: Os
    var armed: bool
    var pending: bool
    var rootFd: Option<nat>
    ghost var asked: bool
    ghost var kills: nat

    /** No cancel is lost: one that came too early waits, and any other has run a kill. */
    ghost predicate Valid()
      reads this
    {
      && Sane(os.procs, env.pids) && INIT != root < |os.procs|
      && (rootFd.Some? ==> rootFd.value == root)
      && (if armed then !pending && (asked ==> kills > 0) else pending == asked && kills == 0)
    }

    constructor (env: Env, os: Os, root: nat)
      requires Sane(os.procs, env.pids) && INIT != root < |os.procs|
      ensures Valid() && this.env == env && this.os == os && this.root == root && !armed && !asked
    {
      this.env, this.os, this.root := env, os, root;
      armed, pending, rootFd := false, false, None;
      asked, kills := false, 0;
    }

    /** `afterStart`, which opens the pidfd while the unreaped child owns its pid. */
    method AfterStart()
      requires Valid() && !armed && Unreaped(env, os, root)
      modifies this
      ensures Valid() && armed && asked == old(asked)
      ensures After(env, old(os), os) && Killed(old(os), os, root)
      ensures kills == if old(pending) then 1 else 0
    {
      hide Sane, DoAll, Killed, Descends;
      ghost var before := os;
      var (next, fd) := Open(env, os, os.procs[root].pid);
      PassedIsAfter(env, os);
      OpensRoot(env, os, root);
      os := next;
      if fd.Some? {
        rootFd := fd;
      }
      armed := true;
      QuietIsKilled(env, before, next, root);
      if pending {
        pending := false;
        KillLocked();
        KilledLater(env, before, next, os, root);
      }
    }

    method Cancel()
      requires Valid()
      modifies this
      ensures Valid() && asked && armed == old(armed)
      ensures After(env, old(os), os) && Killed(old(os), os, root)
      ensures kills == if armed then old(kills) + 1 else 0
    {
      hide Sane, DoAll, Killed, Descends;
      asked := true;
      if !armed {
        pending := true;
        QuietIsKilled(env, os, os, root);
      } else {
        KillLocked();
      }
    }

    method KillLocked()
      requires Sane(os.procs, env.pids) && INIT != root < |os.procs| && (rootFd.Some? ==> rootFd.value == root)
      modifies this`os, this`kills
      ensures Sane(os.procs, env.pids) && root < |os.procs| && kills == old(kills) + 1
      ensures After(env, old(os), os) && Killed(old(os), os, root)
    {
      hide Sane, DoAll, Killed, Descends;
      ghost var before := os;
      kills := kills + 1;
      if rootFd.None? {
        KillRootIsAfter(env, os, root);
        os := KillRoot(env, os, root);
        QuietIsKilled(env, before, os, root);
      } else {
        var next, settled;
        ghost var from, walked;
        next, from, walked, settled := KillTree(env, os, os.procs[root].pid, root);
        os := next;
      }
    }

    method Close()
      requires Valid()
      modifies this`rootFd
      ensures Valid() && rootFd.None?
    {
      rootFd := None;
    }
  }

  lemma OpensRoot(env: Env, os: Os, root: nat)
    requires Sane(os.procs, env.pids) && root < |os.procs| && Unreaped(env, os, root)
    ensures var fd := Open(env, os, os.procs[root].pid).1; fd.Some? ==> fd.value == root
  {
    hide Sane, DoAll;
    PassedIsAfter(env, os);
    var next := Passed(env, os);
    var fd := Open(env, os, os.procs[root].pid).1;
    if fd.Some? {
      OneOwner(next.procs, env.pids, fd.value, root, os.procs[root].pid);
    }
  }

  /** Signals to the root alone, none of them a stop. */
  lemma QuietIsKilled(env: Env, a: Os, b: Os, root: nat)
    requires Sane(a.procs, env.pids)
    requires b == a || After(env, a, b)
    requires forall k :: |a.sent| <= k < |b.sent| ==> b.sent[k].id == root && !IsStop(b.sent[k])
    ensures After(env, a, b) && Killed(a, b, root)
  {
    hide Sane;
  }

  /** Two quiet stretches and a kill are a kill. */
  lemma KilledLater(env: Env, a: Os, b: Os, c: Os, root: nat)
    requires After(env, a, b) && a.sent == b.sent && After(env, b, c) && Killed(b, c, root)
    ensures After(env, a, c) && Killed(a, c, root)
  {
    hide Sane, Descends;
    AfterTransitive(env, a, b, c);
  }
}
