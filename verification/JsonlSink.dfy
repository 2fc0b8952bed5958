/** The JSONL event sink (agent/transcript.go:226-444) under every interleaving of its locked sections: an append
    and a finalize look their run up in one section and write in a later one. */
module JsonlSink {

  import opened Decimal

  datatype Line = Start | Event(n: nat) | Finalize

  /** What the file system makes of an exclusive create, besides refusing a file that exists. */
  datatype Io = Works | MkdirFails | OpenFails

  /** One entry; a retired one has no file and no encoder. */
  datatype Entry = Entry(id: string, live: bool)

  /** A file, and the entry that created it; a leftover has none. */
  datatype File = File(owner: Option<nat>, lines: seq<Line>)

  /** A write that has looked its entry up and not written yet. */
  datatype Task = Append(entry: nat, n: nat) | Finish(entry: nat, accepted: bool)

  datatype Sink = Sink(runs: map<string, nat>, entries: seq<Entry>, files: map<string, File>, tasks: seq<Task>)

  datatype Section =
    | Admit(id: string, accepted: bool, io: Io)
    | LookUpAppend(id: string, n: nat, accepted: bool)
    | LookUpFinalize(id: string, accepted: bool)
    | RunTask(k: nat)

  /** Every index points somewhere. */
  predicate Wired(s: Sink) {
    && (forall id :: id in s.runs ==> s.runs[id] < |s.entries| && s.entries[s.runs[id]].id == id)
    && (forall k :: 0 <= k < |s.tasks| ==> s.tasks[k].entry < |s.entries|)
    && (forall e :: 0 <= e < |s.entries| && s.entries[e].live ==> Owns(s, e))
    && (forall id :: id in s.files && s.files[id].owner.Some? ==>
          s.files[id].owner.value < |s.entries| && s.entries[s.files[id].owner.value].id == id)
  }

  predicate Owns(s: Sink, e: nat)
    requires e < |s.entries|
  {
    s.entries[e].id in s.files && s.files[s.entries[e].id].owner == Some(e)
  }

  function Retired(s: Sink, e: nat): Sink
    requires e < |s.entries|
  {
    s.(entries := s.entries[e := s.entries[e].(live := false)])
  }

  function Appended(s: Sink, e: nat, line: Line): Sink
    requires e < |s.entries| && s.entries[e].id in s.files
  {
    var id := s.entries[e].id;
    s.(files := s.files[id := s.files[id].(lines := s.files[id].lines + [line])])
  }

  function Admitted(s: Sink, id: string, accepted: bool, io: Io): Sink
    requires Wired(s)
  {
    if id in s.runs then Retired(s, s.runs[id])
    else if !accepted then s
    else
      var e := |s.entries|;
      if !io.Works? || id in s.files then s.(runs := s.runs[id := e], entries := s.entries + [Entry(id, false)])
      else s.(runs := s.runs[id := e], entries := s.entries + [Entry(id, true)],
              files := s.files[id := File(Some(e), [Start])])
  }

  function Written(s: Sink, t: Task): Sink
    requires Wired(s) && t.entry < |s.entries|
  {
    var live := s.entries[t.entry].live;
    match t
    case Append(e, n) => if live then Appended(s, e, Event(n)) else s
    case Finish(e, accepted) => Retired(if live && accepted then Appended(s, e, Finalize) else s, e)
  }

  function Do(s: Sink, step: Section): Sink
    requires Wired(s)
  {
    match step
    case Admit(id, accepted, io) => Admitted(s, id, accepted, io)
    case LookUpAppend(id, n, accepted) =>
      if id in s.runs && accepted then s.(tasks := s.tasks + [Append(s.runs[id], n)]) else s
    case LookUpFinalize(id, accepted) =>
      if id in s.runs then s.(runs := s.runs - {id}, tasks := s.tasks + [Finish(s.runs[id], accepted)]) else s
    case RunTask(k) =>
      if k < |s.tasks| then Written(s, s.tasks[k]).(tasks := s.tasks[..k] + s.tasks[k + 1..]) else s
  }

  /** The sink itself: each method is one locked section. */
  class JSONLSink {
    var runs: map<string, nat>
    var entries: seq<Entry>
    var files: map<string, File>
    var tasks: seq<Task>

    ghost function View(): Sink
      reads this
    {
      Sink(runs, entries, files, tasks)
    }

    /** `admit`. */
    method AdmitStart(id: string, accepted: bool, io: Io) returns (refused: bool)
      requires Wired(View())
      modifies this
      ensures View() == Do(old(View()), Admit(id, accepted, io))
      ensures refused <==> id in old(runs) || !accepted || !io.Works? || id in old(files)
    {
      if id in runs {
        Retire(runs[id]);
        return true;
      }
      if !accepted {
        return true;
      }
      var e := |entries|;
      if io.MkdirFails? || io.OpenFails? || id in files {
        entries := entries + [Entry(id, false)];
        runs := runs[id := e];
        return true;
      }
      files := files[id := File(Some(e), [Start])];
      entries := entries + [Entry(id, true)];
      runs := runs[id := e];
      return false;
    }

    method Retire(e: nat)
      requires e < |entries|
      modifies this`entries
      ensures View() == Retired(old(View()), e)
    {
      entries := entries[e := entries[e].(live := false)];
    }

    /** The sink-locked half of `appendRun`. */
    method BeginAppend(id: string, n: nat, accepted: bool) returns (unknown: bool)
      requires Wired(View())
      modifies this`tasks
      ensures View() == Do(old(View()), LookUpAppend(id, n, accepted))
      ensures unknown <==> id !in runs
    {
      unknown := id !in runs;
      if !unknown && accepted {
        tasks := tasks + [Append(runs[id], n)];
      }
    }

    /** The sink-locked half of `finalizeRun`: the entry leaves the table at once. */
    method BeginFinalize(id: string, accepted: bool) returns (unknown: bool)
      requires Wired(View())
      modifies this`tasks, this`runs
      ensures View() == Do(old(View()), LookUpFinalize(id, accepted)) && id !in runs
      ensures unknown <==> id !in old(runs)
    {
      unknown := id !in runs;
      if !unknown {
        tasks := tasks + [Finish(runs[id], accepted)];
        runs := runs - {id};
      }
    }

    /** `write` or `writeAndRetire`, under the entry's lock. */
    method FinishTask(k: nat)
      requires Wired(View()) && k < |tasks|
      modifies this
      ensures View() == Do(old(View()), RunTask(k))
    {
      var t := tasks[k];
      tasks := tasks[..k] + tasks[k + 1..];
      var e := entries[t.entry];
      if e.live && (t.Append? || t.accepted) {
        assert Owns(old(View()), t.entry);
        files := files[e.id := files[e.id].(lines := files[e.id].lines + [if t.Append? then Event(t.n) else Finalize])];
      }
      if t.Finish? {
        Retire(t.entry);
      }
    }
  }

  // ----- What every section keeps -----

  /** A file of the sink: one Start, first; a Finalize only at the end, and none while its entry is live. */
  predicate WellKept(f: File, live: bool) {
    && f.lines != [] && f.lines[0].Start?
    && (forall i :: 0 < i < |f.lines| ==> !f.lines[i].Start?)
    && (forall i :: 0 <= i < |f.lines| && f.lines[i].Finalize? ==> i == |f.lines| - 1 && !live)
  }

  predicate FilesKept(s: Sink)
    requires Wired(s)
  {
    forall id :: id in s.files && s.files[id].owner.Some? ==>
      WellKept(s.files[id], s.entries[s.files[id].owner.value].live)
  }

  predicate Good(s: Sink) {
    Wired(s) && FilesKept(s)
  }

  /** Between two states: entries stay and stay retired, files stay with their owner, and only a live entry's file
      grows, at its end. */
  ghost predicate Onward(a: Sink, b: Sink) {
    && |a.entries| <= |b.entries|
    && (forall e :: 0 <= e < |a.entries| ==>
        b.entries[e].id == a.entries[e].id && (b.entries[e].live ==> a.entries[e].live))
    && (forall id :: id in a.files ==>
          && id in b.files && b.files[id].owner == a.files[id].owner && a.files[id].lines <= b.files[id].lines
          && (b.files[id] != a.files[id] ==>
                a.files[id].owner.Some? && a.files[id].owner.value < |a.entries| &&
                  a.entries[a.files[id].owner.value].live))
  }

  lemma OnwardTransitive(a: Sink, b: Sink, c: Sink)
    requires Wired(a) && Onward(a, b) && Onward(b, c)
    ensures Onward(a, c)
  {
    forall id | id in a.files
      ensures id in c.files && c.files[id].owner == a.files[id].owner && a.files[id].lines <= c.files[id].lines
      ensures c.files[id] != a.files[id] ==>
                a.files[id].owner.Some? && a.files[id].owner.value < |a.entries| &&
                  a.entries[a.files[id].owner.value].live
    {
      assert id in b.files;
      assert a.files[id].lines <= b.files[id].lines <= c.files[id].lines;
    }
  }

  lemma RetiredIsGood(s: Sink, e: nat)
    requires Good(s) && e < |s.entries|
    ensures Good(Retired(s, e)) && Onward(s, Retired(s, e))
  {
    var t := Retired(s, e);
    forall x | 0 <= x < |t.entries| && t.entries[x].live ensures Owns(t, x) {
      assert Owns(s, x);
    }
    forall id | id in t.files && t.files[id].owner.Some? ensures WellKept(t.files[id],
        t.entries[t.files[id].owner.value].live) {
      assert WellKept(s.files[id], s.entries[s.files[id].owner.value].live);
    }
  }

  lemma AppendedIsGood(s: Sink, e: nat, n: nat)
    requires Good(s) && e < |s.entries| && s.entries[e].live
    ensures Owns(s, e) && Good(Appended(s, e, Event(n))) && Onward(s, Appended(s, e, Event(n)))
  {
    assert Owns(s, e);
    var t := Appended(s, e, Event(n));
    forall x | 0 <= x < |t.entries| && t.entries[x].live ensures Owns(t, x) {
      assert Owns(s, x);
    }
    forall id | id in t.files && t.files[id].owner.Some? ensures WellKept(t.files[id],
        t.entries[t.files[id].owner.value].live) {
      assert WellKept(s.files[id], s.entries[s.files[id].owner.value].live);
    }
  }

  lemma FinishedIsGood(s: Sink, e: nat)
    requires Good(s) && e < |s.entries| && s.entries[e].live
    ensures Owns(s, e) && Good(Retired(Appended(s, e, Finalize), e)) && Onward(s, Retired(Appended(s, e, Finalize), e))
  {
    assert Owns(s, e);
    var t := Retired(Appended(s, e, Finalize), e);
    forall x | 0 <= x < |t.entries| && t.entries[x].live ensures Owns(t, x) {
      assert Owns(s, x);
    }
    forall id | id in t.files && t.files[id].owner.Some? ensures WellKept(t.files[id],
        t.entries[t.files[id].owner.value].live) {
      assert WellKept(s.files[id], s.entries[s.files[id].owner.value].live);
    }
  }

  lemma AdmittedIsGood(s: Sink, id: string, accepted: bool, io: Io)
    requires Good(s)
    ensures Good(Admitted(s, id, accepted, io)) && Onward(s, Admitted(s, id, accepted, io))
  {
    hide WellKept;
    if id in s.runs {
      RetiredIsGood(s, s.runs[id]);
    } else if accepted {
      NewEntryIsGood(s, id, io);
    } else {
      OnwardSelf(s);
    }
  }

  lemma NewEntryIsGood(s: Sink, id: string, io: Io)
    requires Good(s) && id !in s.runs
    ensures Good(Admitted(s, id, true, io)) && Onward(s, Admitted(s, id, true, io))
  {
    hide WellKept;
    var t := Admitted(s, id, true, io);
    NewFileIsKept(|s.entries|);
    forall x | 0 <= x < |t.entries| && t.entries[x].live ensures Owns(t, x) {
      if x < |s.entries| {
        assert Owns(s, x);
      }
    }
    forall i | i in t.files && t.files[i].owner.Some?
      ensures t.files[i].owner.value < |t.entries| && t.entries[t.files[i].owner.value].id == i
      ensures WellKept(t.files[i], t.entries[t.files[i].owner.value].live)
    {
      if i in s.files && t.files[i] == s.files[i] {
        assert s.entries[s.files[i].owner.value].id == i;
        assert WellKept(s.files[i], s.entries[s.files[i].owner.value].live);
      }
    }
  }

  lemma NewFileIsKept(e: nat)
    ensures WellKept(File(Some(e), [Start]), true)
  {
  }

  lemma TaskGone(s: Sink, k: nat)
    requires Good(s) && k < |s.tasks|
    ensures Good(s.(tasks := s.tasks[..k] + s.tasks[k + 1..]))
  {
    var t := s.(tasks := s.tasks[..k] + s.tasks[k + 1..]);
    forall x | 0 <= x < |t.entries| && t.entries[x].live ensures Owns(t, x) {
      assert Owns(s, x);
    }
  }

  lemma LookUpIsGood(s: Sink, runs: map<string, nat>, task: Task)
    requires Good(s) && task.entry < |s.entries| && (forall id :: id in runs ==> id in s.runs && runs[id] == s.runs[id])
    ensures var t := s.(runs := runs, tasks := s.tasks + [task]); Good(t) && Onward(s, t)
  {
    var t := s.(runs := runs, tasks := s.tasks + [task]);
    forall x | 0 <= x < |t.entries| && t.entries[x].live ensures Owns(t, x) {
      assert Owns(s, x);
    }
  }

  lemma SectionIsGood(s: Sink, step: Section)
    requires Good(s)
    ensures Good(Do(s, step)) && Onward(s, Do(s, step))
  {
    hide Good, FilesKept, Onward, Owns, Admitted, Retired, Appended;
    GoodIsWired(s);
    OnwardSelf(s);
    match step
    case Admit(id, accepted, io) => AdmittedIsGood(s, id, accepted, io);
    case LookUpAppend(id, n, accepted) =>
      if id in s.runs && accepted {
        LookUpIsGood(s, s.runs, Append(s.runs[id], n));
      }
    case LookUpFinalize(id, accepted) =>
      if id in s.runs {
        LookUpIsGood(s, s.runs - {id}, Finish(s.runs[id], accepted));
      }
    case RunTask(k) =>
      if k < |s.tasks| {
        WrittenIsGood(s, k);
      }
  }

  lemma WrittenIsGood(s: Sink, k: nat)
    requires Good(s) && k < |s.tasks|
    ensures var t := Written(s, s.tasks[k]).(tasks := s.tasks[..k] + s.tasks[k + 1..]); Good(t) && Onward(s, t)
  {
    hide Good, FilesKept, Onward;
    GoodIsWired(s);
    OnwardSelf(s);
    var t := s.tasks[k];
    if s.entries[t.entry].live {
      match t
      case Append(e, n) => AppendedIsGood(s, e, n);
      case Finish(e, accepted) =>
        if accepted {
          FinishedIsGood(s, e);
        } else {
          RetiredIsGood(s, e);
        }
    } else if t.Finish? {
      RetiredIsGood(s, t.entry);
    }
    TaskGone(Written(s, t), k);
    TasksDoNotMatter(s, Written(s, t), s.tasks[..k] + s.tasks[k + 1..]);
  }

  lemma TasksDoNotMatter(s: Sink, t: Sink, tasks: seq<Task>)
    requires Onward(s, t)
    ensures Onward(s, t.(tasks := tasks))
  {
  }

  lemma GoodIsWired(s: Sink)
    requires Good(s)
    ensures Wired(s)
  {
  }

  lemma OnwardSelf(s: Sink)
    ensures Onward(s, s)
  {
  }

  // ----- Whole runs -----

  /** The states a schedule goes through. */
  ghost predicate Schedule(states: seq<Sink>, steps: seq<Section>) {
    && |states| == |steps| + 1
    && forall i :: 0 <= i < |steps| ==> Wired(states[i]) && states[i + 1] == Do(states[i], steps[i])
  }

  /** Nothing was started yet: leftover files may be around. */
  predicate Fresh(s: Sink) {
    s.runs == map[] && s.entries == [] && s.tasks == [] && forall id :: id in s.files ==> s.files[id].owner.None?
  }

  lemma FreshIsGood(s: Sink)
    requires Fresh(s)
    ensures Good(s)
  {
  }

  lemma {:induction false} ReachableIsGood(states: seq<Sink>, steps: seq<Section>, i: nat)
    requires Schedule(states, steps) && i < |states| && Fresh(states[0])
    ensures Good(states[i])
  {
    if i == 0 {
      FreshIsGood(states[0]);
    } else {
      ReachableIsGood(states, steps, i - 1);
      SectionIsGood(states[i - 1], steps[i - 1]);
    }
  }

  lemma {:induction false} LaterIsOnward(states: seq<Sink>, steps: seq<Section>, i: nat, j: nat)
    requires Schedule(states, steps) && i <= j < |states| && Fresh(states[0])
    ensures Onward(states[i], states[j])
    decreases j
  {
    if i == j {
      OnwardSelf(states[i]);
    } else {
      LaterIsOnward(states, steps, i, j - 1);
      ReachableIsGood(states, steps, i);
      ReachableIsGood(states, steps, j - 1);
      SectionIsGood(states[j - 1], steps[j - 1]);
      OnwardTransitive(states[i], states[j - 1], states[j]);
    }
  }

  /** Over every schedule: a file the sink created keeps its creator, begins with the run's only Start and holds a
      Finalize only as its last line. */
  lemma EveryFileIsOneRun(states: seq<Sink>, steps: seq<Section>, i: nat, j: nat, id: string)
    requires Schedule(states, steps) && i <= j < |states| && Fresh(states[0])
    requires id in states[i].files && states[i].files[id].owner.Some?
    ensures id in states[j].files && states[j].files[id].owner == states[i].files[id].owner
    ensures WellKept(states[j].files[id], false) && states[i].files[id].lines <= states[j].files[id].lines
  {
    LaterIsOnward(states, steps, i, j);
    ReachableIsGood(states, steps, j);
  }

  /** Once an entry is retired, by a Finalize, a refusal or a duplicate Start, its file never changes again, whatever
      writes had already looked the entry up. */
  lemma RetiredFileIsFrozen(states: seq<Sink>, steps: seq<Section>, i: nat, j: nat, id: string)
    requires Schedule(states, steps) && i <= j < |states| && Fresh(states[0])
    requires id in states[i].files && states[i].files[id].owner.Some?
    requires states[i].files[id].owner.value < |states[i].entries| &&
             !states[i].entries[states[i].files[id].owner.value].live
    ensures id in states[j].files && states[j].files[id] == states[i].files[id]
  {
    LaterIsOnward(states, steps, i, j);
  }

  /** A leftover file is never written to. */
  lemma LeftoverIsFrozen(states: seq<Sink>, steps: seq<Section>, i: nat, j: nat, id: string)
    requires Schedule(states, steps) && i <= j < |states| && Fresh(states[0])
    requires id in states[i].files && states[i].files[id].owner.None?
    ensures id in states[j].files && states[j].files[id] == states[i].files[id]
  {
    LaterIsOnward(states, steps, i, j);
  }

  /** A second Start for a run on record retires its entry and touches no file. */
  lemma DuplicateStartPoisons(s: Sink, id: string, accepted: bool, io: Io)
    requires Good(s) && id in s.runs
    ensures var t := Do(s, Admit(id, accepted, io)); !t.entries[s.runs[id]].live && t.files == s.files
  {
  }

  /** Over every schedule: after a second Start for a run on record, the run's file never changes again, whatever writes
      had looked the entry up before. */
  lemma DuplicateStartFreezes(states: seq<Sink>, steps: seq<Section>, i: nat, j: nat, id: string)
    requires Schedule(states, steps) && i < j < |states| && Fresh(states[0])
    requires steps[i].Admit? && steps[i].id == id && id in states[i].runs
    requires id in states[i].files && states[i].files[id].owner == Some(states[i].runs[id])
    ensures id in states[j].files && states[j].files[id] == states[i].files[id]
  {
    hide Do, Good;
    ReachableIsGood(states, steps, i);
    DuplicateStartPoisons(states[i], id, steps[i].accepted, steps[i].io);
    LaterIsOnward(states, steps, i, i + 1);
    RetiredFileIsFrozen(states, steps, i + 1, j, id);
  }
}
