/** Physical path resolution (fsroot/pathutil.go:31-113) and containment under a root (fsroot/fsroot.go:60-97).
    A physical path is the list of its names from the filesystem root. */
module PathWalk {

  import opened Decimal

  type Path = seq<string>

  datatype Look = Missing | Blocked | Dir | File | Link(body: string)

  /** What lstat answers for each physical path. */
  datatype Fs = Fs(look: Path -> Look)

  const MAX_HOPS := 40

  /** The first component of a path text, and what stands behind its slash if there is one. */
  function Cut(q: string): (r: (string, Option<string>))
    ensures '/' !in r.0 && |r.0| <= |q|
    ensures r.1.None? ==> q == r.0
    ensures r.1.Some? ==> q == r.0 + "/" + r.1.value && |r.1.value| < |q|
    decreases |q|
  {
    if q == "" then ("", None)
    else if q[0] == '/' then ("", Some(q[1..]))
    else var (c, more) := Cut(q[1..]); ([q[0]] + c, more)
  }

  predicate IsName(c: string) {
    c != "" && c != "." && c != ".." && '/' !in c
  }

  predicate AllNames(p: Path) {
    forall i :: 0 <= i < |p| ==> IsName(p[i])
  }

  function Parent(p: Path): Path {
    if p == [] then p else p[..|p| - 1]
  }

  /** A link's body as a start directory and components to walk. */
  function Start(dir: Path, body: string): Path {
    if body != "" && body[0] == '/' then [] else dir
  }

  function Strip(body: string): (t: string)
    ensures |t| <= |body|
  {
    if body != "" && body[0] == '/' then body[1..] else body
  }

  // ----- The one loop -----

  /** The components a link's body leaves to walk. */
  function Onward(t: string, rest: string): string {
    if t == "" then rest else if rest == "" then t else t + "/" + rest
  }

  /** Where the loop ends: a resolved prefix, the names behind the first missing one, and the links followed. */
  datatype Arrival = Arrival(dest: Path, tail: Path, hops: nat)
  {
    function Path(): Path {
      dest + tail
    }
  }

  function Walk(fs: Fs, dest: Path, q: string, tail: Path, hops: nat): (r: Option<Arrival>)
    requires hops <= MAX_HOPS
    decreases MAX_HOPS - hops, |q|
  {
    if q == "" then Some(Arrival(dest, tail, hops))
    else
      var (c, more) := Cut(q);
      var rest := if more.Some? then more.value else "";
      if c == "" || c == "." then Walk(fs, dest, rest, tail, hops)
      else if c == ".." then (if tail != [] then None else Walk(fs, Parent(dest), rest, tail, hops))
      else if tail != [] then Walk(fs, dest, rest, tail + [c], hops)
      else
        match fs.look(dest + [c])
        case Missing => Walk(fs, dest, rest, [c], hops)
        case Blocked => None
        case Dir => Walk(fs, dest + [c], rest, [], hops)
        case File => if rest != "" then None else Walk(fs, dest + [c], rest, [], hops)
        case Link(body) =>
          if hops + 1 > MAX_HOPS then None
          else Walk(fs, Start(dest, body), Onward(Strip(body), rest), [], hops + 1)
  }

  /** Every proper prefix is a directory, and the path itself is a directory or a file: no link anywhere. */
  predicate Physical(fs: Fs, p: Path) {
    && AllNames(p)
    && (fs.look(p).Dir? || fs.look(p).File?)
    && forall k :: 0 <= k < |p| ==> fs.look(p[..k]).Dir?
  }

  /** What the walk has resolved, and the names it only appends behind the first missing one. */
  predicate Resolved(fs: Fs, dest: Path, tail: Path) {
    && Physical(fs, dest) && AllNames(tail)
    && (tail != [] ==> fs.look(dest).Dir? && fs.look(dest + [tail[0]]).Missing?)
  }

  lemma PhysicalParent(fs: Fs, p: Path)
    requires Physical(fs, p)
    ensures Physical(fs, Parent(p)) && (fs.look(p).Dir? ==> fs.look(Parent(p)).Dir?)
  {
    if p != [] {
      var d := Parent(p);
      forall k | 0 <= k < |d| ensures fs.look(d[..k]).Dir? {
        assert d[..k] == p[..k];
      }
    }
  }

  lemma PhysicalChild(fs: Fs, p: Path, c: string)
    requires Physical(fs, p) && fs.look(p).Dir? && IsName(c) && (fs.look(p + [c]).Dir? || fs.look(p + [c]).File?)
    ensures Physical(fs, p + [c])
  {
    var d := p + [c];
    forall k | 0 <= k < |d| ensures fs.look(d[..k]).Dir? {
      assert d[..k] == if k == |p| then p else p[..k];
    }
  }

  /** The state of the loop: a resolved prefix, which is a directory while components follow. */
  predicate Walking(fs: Fs, dest: Path, q: string, tail: Path) {
    Resolved(fs, dest, tail) && (q != "" ==> fs.look(dest).Dir?)
  }

  /** `evalExistingPrefixPath`. The loop ends on every filesystem, cyclic links included. */
  method EvalExistingPrefix(fs: Fs, p: string) returns (r: Option<Arrival>)
    requires fs.look([]).Dir?
    requires p != "" && p[0] == '/'
    ensures r == Walk(fs, [], p[1..], [], 0)
    ensures r.Some? ==> Resolved(fs, r.value.dest, r.value.tail)
  {
    hide Walk, Physical;
    var d: Path, t: Path := [], [];
    var q, hops := p[1..], 0;
    RootIsPhysical(fs);
    while q != ""
      invariant hops <= MAX_HOPS && Walking(fs, d, q, t)
      invariant Walk(fs, d, q, t, hops) == Walk(fs, [], p[1..], [], 0)
      decreases MAX_HOPS - hops, |q|
    {
      UnfoldWalk(fs, d, q, t, hops);
      var (c, more) := Cut(q);
      q := if more.Some? then more.value else "";
      if c == "" || c == "." {
      } else if c == ".." {
        if t != [] {
          return None;
        }
        PhysicalParent(fs, d);
        d := Parent(d);
      } else if t != [] {
        t := t + [c];
      } else {
        match fs.look(d + [c]) {
          case Missing => t := [c];
          case Blocked => return None;
          case Dir =>
            PhysicalChild(fs, d, c);
            d := d + [c];
          case File =>
            if q != "" {
              return None;
            }
            PhysicalChild(fs, d, c);
            d := d + [c];
          case Link(body) =>
            hops := hops + 1;
            if hops > MAX_HOPS {
              return None;
            }
            d := Start(d, body);
            q := Onward(Strip(body), q);
            RootIsPhysical(fs);
        }
      }
    }
    UnfoldWalk(fs, d, q, t, hops);
    return Some(Arrival(d, t, hops));
  }

  lemma RootIsPhysical(fs: Fs)
    requires fs.look([]).Dir?
    ensures Physical(fs, [])
  {
  }

  lemma UnfoldWalk(fs: Fs, dest: Path, q: string, tail: Path, hops: nat)
    requires hops <= MAX_HOPS
    ensures q == "" ==> Walk(fs, dest, q, tail, hops) == Some(Arrival(dest, tail, hops))
    ensures q != "" ==>
              var (c, more) := Cut(q);
              var rest := if more.Some? then more.value else "";
              Walk(fs, dest, q, tail, hops) ==
              if c == "" || c == "." then Walk(fs, dest, rest, tail, hops)
              else if c == ".." then (if tail != [] then None else Walk(fs, Parent(dest), rest, tail, hops))
              else if tail != [] then Walk(fs, dest, rest, tail + [c], hops)
              else
                match fs.look(dest + [c])
                case Missing => Walk(fs, dest, rest, [c], hops)
                case Blocked => None
                case Dir => Walk(fs, dest + [c], rest, [], hops)
                case File => if rest != "" then None else Walk(fs, dest + [c], rest, [], hops)
                case Link(body) =>
                  if hops + 1 > MAX_HOPS then None
                  else Walk(fs, Start(dest, body), Onward(Strip(body), rest), [], hops + 1)
  {
  }

  lemma WalkEnds(fs: Fs, dest: Path, hops: nat)
    requires hops <= MAX_HOPS
    ensures Walk(fs, dest, "", [], hops) == Some(Arrival(dest, [], hops))
  {
  }

  // ----- Pathname resolution, section 4.13 of POSIX.1-2017 Base Definitions -----

  datatype Lookup = Fails | Gives(path: Path, hops: nat)

  /** The recursive walk: a link is resolved by a walk of its own before the components behind it, and whatever
      has a slash behind it must be a directory. Only the last component may be missing. */
  function Kernel(fs: Fs, dir: Path, q: string, hops: nat): (r: Lookup)
    requires hops <= MAX_HOPS
    ensures r.Gives? ==> hops <= r.hops <= MAX_HOPS
    decreases MAX_HOPS - hops, |q|
  {
    var (c, more) := Cut(q);
    if c == "" || c == "." then (if more.None? then Gives(dir, hops) else Kernel(fs, dir, more.value, hops))
    else if c == ".." then (if more.None? then Gives(Parent(dir), hops) else Kernel(fs, Parent(dir), more.value, hops))
    else
      match fs.look(dir + [c])
      case Missing => if more.None? then Gives(dir + [c], hops) else Fails
      case Blocked => Fails
      case File => if more.None? then Gives(dir + [c], hops) else Fails
      case Dir => if more.None? then Gives(dir + [c], hops) else Kernel(fs, dir + [c], more.value, hops)
      case Link(body) =>
        if hops + 1 > MAX_HOPS || body == "" then Fails
        else
          var x := Kernel(fs, Start(dir, body), Strip(body), hops + 1);
          if more.None? || x.Fails? then x
          else if !fs.look(x.path).Dir? then Fails
          else Kernel(fs, x.path, more.value, x.hops)
  }

  lemma {:induction false} CutAppend(q: string, rest: string)
    ensures Cut(q + "/" + rest) ==
            var (c, more) := Cut(q); (c, Some(if more.Some? then more.value + "/" + rest else rest))
    decreases |q|
  {
    var s := q + "/" + rest;
    if q == "" {
      assert s[1..] == rest;
    } else if q[0] == '/' {
      assert s[1..] == q[1..] + "/" + rest;
    } else {
      CutAppend(q[1..], rest);
      assert s[1..] == q[1..] + "/" + rest;
    }
  }

  lemma UnfoldKernel(fs: Fs, dir: Path, q: string, hops: nat)
    requires hops <= MAX_HOPS
    ensures var (c, more) := Cut(q);
            Kernel(fs, dir, q, hops) ==
            if c == "" || c == "." then (if more.None? then Gives(dir, hops) else Kernel(fs, dir, more.value, hops))
            else if c == ".." then
              (if more.None? then Gives(Parent(dir), hops) else Kernel(fs, Parent(dir), more.value, hops))
            else
              match fs.look(dir + [c])
              case Missing => if more.None? then Gives(dir + [c], hops) else Fails
              case Blocked => Fails
              case File => if more.None? then Gives(dir + [c], hops) else Fails
              case Dir => if more.None? then Gives(dir + [c], hops) else Kernel(fs, dir + [c], more.value, hops)
              case Link(body) =>
                if hops + 1 > MAX_HOPS || body == "" then Fails
                else
                  var x := Kernel(fs, Start(dir, body), Strip(body), hops + 1);
                  if more.None? || x.Fails? then x
                  else if !fs.look(x.path).Dir? then Fails
                  else Kernel(fs, x.path, more.value, x.hops)
  {
  }

  /** Behind a link to a directory, the loop walks the body and then the rest: it gets where the body leads. */
  lemma BodyThenRest(fs: Fs, start: Path, t: string, hops: nat, rest: string)
    requires hops <= MAX_HOPS && rest != ""
    requires var x := Kernel(fs, start, t, hops); x.Gives? && fs.look(x.path).Dir?
    ensures var x := Kernel(fs, start, t, hops);
            Walk(fs, start, Onward(t, rest), [], hops) == Walk(fs, x.path, rest, [], x.hops)
    decreases MAX_HOPS - hops, |t|, 2
  {
    hide Kernel, Walk;
    if t == "" {
      UnfoldKernel(fs, start, t, hops);
    } else {
      LoopContinues(fs, start, t, hops, rest);
    }
  }

  /** Where the recursive walk reaches a directory, the loop reaches it too and goes on with what follows. */
  lemma {:induction false} LoopContinues(fs: Fs, dir: Path, q: string, hops: nat, rest: string)
    requires hops <= MAX_HOPS && rest != ""
    requires var k := Kernel(fs, dir, q, hops); k.Gives? && fs.look(k.path).Dir?
    ensures var k := Kernel(fs, dir, q, hops);
            Walk(fs, dir, q + "/" + rest, [], hops) == Walk(fs, k.path, rest, [], k.hops)
    decreases MAX_HOPS - hops, |q|, 1
  {
    hide Kernel, Walk;
    UnfoldKernel(fs, dir, q, hops);
    UnfoldWalk(fs, dir, q + "/" + rest, [], hops);
    CutAppend(q, rest);
    var (c, more) := Cut(q);
    if c == "" || c == "." {
      if more.Some? {
        LoopContinues(fs, dir, more.value, hops, rest);
      }
    } else if c == ".." {
      if more.Some? {
        LoopContinues(fs, Parent(dir), more.value, hops, rest);
      }
    } else if fs.look(dir + [c]).Link? {
      var body := fs.look(dir + [c]).body;
      var x := Kernel(fs, Start(dir, body), Strip(body), hops + 1);
      BodyThenRest(fs, Start(dir, body), Strip(body), hops + 1, if more.Some? then more.value + "/" + rest else rest);
      if more.Some? {
        LoopContinues(fs, x.path, more.value, x.hops, rest);
      }
    } else if more.Some? {
      LoopContinues(fs, dir + [c], more.value, hops, rest);
    }
  }

  /** The loop ends where the recursive walk does, after as many links. */
  predicate Lands(w: Option<Arrival>, k: Lookup) {
    k.Gives? && w.Some? && w.value.Path() == k.path && w.value.hops == k.hops && |w.value.tail| <= 1
  }

  /** Whatever the recursive walk resolves, the loop resolves to the same path over the same links. */
  lemma {:induction false} LoopAgrees(fs: Fs, dir: Path, q: string, hops: nat)
    requires hops <= MAX_HOPS && Kernel(fs, dir, q, hops).Gives?
    ensures Lands(Walk(fs, dir, q, [], hops), Kernel(fs, dir, q, hops))
    decreases MAX_HOPS - hops, |q|, 0
  {
    hide Kernel, Walk, Lands;
    UnfoldKernel(fs, dir, q, hops);
    UnfoldWalk(fs, dir, q, [], hops);
    var (c, more) := Cut(q);
    var rest := if more.Some? then more.value else "";
    if q == "" {
      WalkEnds(fs, dir, hops);
      HereLands(dir, hops);
    } else if c == "" || c == "." {
      EndOrMore(fs, dir, more, hops);
    } else if c == ".." {
      EndOrMore(fs, Parent(dir), more, hops);
    } else if fs.look(dir + [c]).Link? {
      var body := fs.look(dir + [c]).body;
      var x := Kernel(fs, Start(dir, body), Strip(body), hops + 1);
      if rest == "" {
        LoopAgrees(fs, Start(dir, body), Strip(body), hops + 1);
        UnfoldKernel(fs, x.path, "", x.hops);
      } else {
        BodyThenRest(fs, Start(dir, body), Strip(body), hops + 1, rest);
        EndOrMore(fs, x.path, more, x.hops);
      }
    } else if fs.look(dir + [c]).Missing? {
      UnfoldWalk(fs, dir, "", [c], hops);
      MissingLands(dir, c, hops);
    } else {
      EndOrMore(fs, dir + [c], more, hops);
    }
  }

  lemma HereLands(dir: Path, hops: nat)
    ensures Lands(Some(Arrival(dir, [], hops)), Gives(dir, hops))
  {
    assert dir + [] == dir;
  }

  lemma MissingLands(dir: Path, c: string, hops: nat)
    ensures Lands(Some(Arrival(dir, [c], hops)), Gives(dir + [c], hops))
  {
  }

  lemma EndOrMore(fs: Fs, dir: Path, more: Option<string>, hops: nat)
    requires hops <= MAX_HOPS && (more.Some? ==> Kernel(fs, dir, more.value, hops).Gives?)
    ensures Lands(Walk(fs, dir, if more.Some? then more.value else "", [], hops),
                  if more.Some? then Kernel(fs, dir, more.value, hops) else Gives(dir, hops))
    decreases MAX_HOPS - hops, if more.Some? then |more.value| else 0, 1
  {
    hide Kernel, Walk;
    if more.Some? {
      LoopAgrees(fs, dir, more.value, hops);
    } else {
      WalkEnds(fs, dir, hops);
      HereLands(dir, hops);
    }
  }

  // ----- And the other way round -----

  predicate EndsInSlash(q: string) {
    q != "" && q[|q| - 1] == '/'
  }

  /** No link's body is empty or ends in a slash, the root itself apart. */
  ghost predicate Tidy(fs: Fs) {
    forall p: Path :: fs.look(p).Link? ==> fs.look(p).body != "" && !EndsInSlash(Strip(fs.look(p).body))
  }

  /** A directory reached without a link. */
  predicate Stands(fs: Fs, dir: Path) {
    Physical(fs, dir) && fs.look(dir).Dir?
  }

  /** Once a name is missing, one stays missing. */
  lemma {:induction false} TailStays(fs: Fs, dest: Path, q: string, tail: Path, hops: nat)
    requires hops <= MAX_HOPS && tail != []
    ensures var w := Walk(fs, dest, q, tail, hops); w.Some? ==> w.value.tail != []
    decreases |q|
  {
    hide Walk;
    UnfoldWalk(fs, dest, q, tail, hops);
    if q != "" {
      var (c, more) := Cut(q);
      var rest := if more.Some? then more.value else "";
      TailStays(fs, dest, rest, tail, hops);
      TailStays(fs, dest, rest, tail + [c], hops);
    }
  }

  lemma StartStands(fs: Fs, dir: Path, body: string)
    requires Stands(fs, dir)
    ensures Stands(fs, Start(dir, body))
  {
    if dir != [] {
      assert dir[..0] == [];
    }
  }

  /** The loop arrived, with nothing missing. */
  predicate Arrives(fs: Fs, dir: Path, q: string, hops: nat, p: Path, h: nat)
    requires hops <= MAX_HOPS
  {
    Walk(fs, dir, q, [], hops) == Some(Arrival(p, [], h))
  }

  /** The recursive walk of t ends in a directory from which the loop arrives with the rest. */
  predicate Through(fs: Fs, dir: Path, t: string, hops: nat, rest: string, p: Path, h: nat)
    requires hops <= MAX_HOPS
  {
    var x := Kernel(fs, dir, t, hops);
    x.Gives? && Stands(fs, x.path) && Arrives(fs, x.path, rest, x.hops, p, h)
  }

  /** What the loop does with components and more behind them, the recursive walk does with the components alone. */
  lemma {:induction false} LoopWasThrough(fs: Fs, dir: Path, t: string, hops: nat, rest: string, p: Path, h: nat)
    requires hops <= MAX_HOPS && Tidy(fs) && Stands(fs, dir) && rest != "" &&
             Arrives(fs, dir, t + "/" + rest, hops, p, h)
    ensures Through(fs, dir, t, hops, rest, p, h)
    decreases MAX_HOPS - hops, |t|, 0
  {
    hide Kernel, Walk, Physical;
    UnfoldKernel(fs, dir, t, hops);
    UnfoldWalk(fs, dir, t + "/" + rest, [], hops);
    CutAppend(t, rest);
    var (c, more) := Cut(t);
    var onward := if more.Some? then more.value + "/" + rest else rest;
    PhysicalParent(fs, dir);
    if c == "" || c == "." {
      if more.Some? {
        LoopWasThrough(fs, dir, more.value, hops, rest, p, h);
      }
    } else if c == ".." {
      if more.Some? {
        LoopWasThrough(fs, Parent(dir), more.value, hops, rest, p, h);
      }
    } else {
      TailStays(fs, dir, onward, [c], hops);
      match fs.look(dir + [c])
      case Dir =>
        PhysicalChild(fs, dir, c);
        if more.Some? {
          LoopWasThrough(fs, dir + [c], more.value, hops, rest, p, h);
        }
      case Link(body) =>
        StartStands(fs, dir, body);
        BodyWasThrough(fs, Start(dir, body), Strip(body), hops + 1, onward, p, h);
        var x := Kernel(fs, Start(dir, body), Strip(body), hops + 1);
        if more.Some? {
          LoopWasThrough(fs, x.path, more.value, x.hops, rest, p, h);
        }
      case _ =>
    }
  }

  lemma BodyWasThrough(fs: Fs, start: Path, t: string, hops: nat, rest: string, p: Path, h: nat)
    requires hops <= MAX_HOPS && Tidy(fs) && Stands(fs, start) && rest != "" &&
             Arrives(fs, start, Onward(t, rest), hops, p, h)
    ensures Through(fs, start, t, hops, rest, p, h)
    decreases MAX_HOPS - hops, |t|, 1
  {
    hide Kernel, Walk, Physical;
    if t == "" {
      UnfoldKernel(fs, start, t, hops);
    } else {
      LoopWasThrough(fs, start, t, hops, rest, p, h);
    }
  }

  /** The loop arrives only where the recursive walk does, a slash behind a file apart. */
  lemma {:induction false} LoopIsRight(fs: Fs, dir: Path, q: string, hops: nat, p: Path, h: nat)
    requires hops <= MAX_HOPS && Tidy(fs) && Stands(fs, dir) && Arrives(fs, dir, q, hops, p, h)
    requires fs.look(p).Dir? || !EndsInSlash(q)
    ensures Kernel(fs, dir, q, hops) == Gives(p, h)
    decreases MAX_HOPS - hops, |q|
  {
    hide Kernel, Walk, Physical;
    UnfoldKernel(fs, dir, q, hops);
    UnfoldWalk(fs, dir, q, [], hops);
    PhysicalParent(fs, dir);
    if q != "" {
      var (c, more) := Cut(q);
      var rest := if more.Some? then more.value else "";
      assert more.Some? && rest != "" ==> q[|q| - 1] == rest[|rest| - 1];
      assert more == Some("") ==> EndsInSlash(q);
      WalkEnds(fs, dir, hops);
      if c == "" || c == "." {
        LoopIsRight(fs, dir, rest, hops, p, h);
        UnfoldKernel(fs, dir, "", hops);
      } else if c == ".." {
        LoopIsRight(fs, Parent(dir), rest, hops, p, h);
        UnfoldKernel(fs, Parent(dir), "", hops);
      } else {
        TailStays(fs, dir, rest, [c], hops);
        match fs.look(dir + [c])
        case Dir =>
          PhysicalChild(fs, dir, c);
          LoopIsRight(fs, dir + [c], rest, hops, p, h);
          UnfoldKernel(fs, dir + [c], "", hops);
        case File => WalkEnds(fs, dir + [c], hops);
        case Link(body) =>
          StartStands(fs, dir, body);
          var start, t := Start(dir, body), Strip(body);
          if rest == "" {
            LoopIsRight(fs, start, t, hops + 1, p, h);
            UnfoldKernel(fs, p, "", h);
          } else {
            BodyWasThrough(fs, start, t, hops + 1, rest, p, h);
            var x := Kernel(fs, start, t, hops + 1);
            LoopIsRight(fs, x.path, rest, x.hops, p, h);
          }
        case _ =>
      }
    }
  }

  /** What the loop ends with is resolved. */
  lemma {:induction false} WalkResolves(fs: Fs, dest: Path, q: string, tail: Path, hops: nat)
    requires hops <= MAX_HOPS && Walking(fs, dest, q, tail)
    ensures var w := Walk(fs, dest, q, tail, hops); w.Some? ==> Resolved(fs, w.value.dest, w.value.tail)
    decreases MAX_HOPS - hops, |q|
  {
    hide Walk, Physical;
    UnfoldWalk(fs, dest, q, tail, hops);
    if q != "" {
      var (c, more) := Cut(q);
      var rest := if more.Some? then more.value else "";
      PhysicalParent(fs, dest);
      if c == "" || c == "." {
        WalkResolves(fs, dest, rest, tail, hops);
      } else if c == ".." {
        if tail == [] {
          WalkResolves(fs, Parent(dest), rest, tail, hops);
        }
      } else if tail != [] {
        WalkResolves(fs, dest, rest, tail + [c], hops);
      } else {
        match fs.look(dest + [c])
        case Missing => WalkResolves(fs, dest, rest, [c], hops);
        case Dir =>
          PhysicalChild(fs, dest, c);
          WalkResolves(fs, dest + [c], rest, [], hops);
        case File =>
          PhysicalChild(fs, dest, c);
          if rest == "" {
            WalkResolves(fs, dest + [c], rest, [], hops);
          }
        case Link(body) =>
          StartStands(fs, dest, body);
          if hops + 1 <= MAX_HOPS {
            WalkResolves(fs, Start(dest, body), Onward(Strip(body), rest), [], hops + 1);
          }
        case Blocked =>
      }
    }
  }

  /** The recursive walk's result, as the loop sees it: nothing is missing exactly when the loop has no tail. */
  lemma GivenIsArrived(fs: Fs, dir: Path, q: string, hops: nat)
    requires hops <= MAX_HOPS && Stands(fs, dir) && Kernel(fs, dir, q, hops).Gives?
    ensures var k := Kernel(fs, dir, q, hops);
            if fs.look(k.path).Missing? then Walk(fs, dir, q, [], hops).Some? &&
              Walk(fs, dir, q, [], hops).value.tail != []
            else Arrives(fs, dir, q, hops, k.path, k.hops) && Physical(fs, k.path)
  {
    hide Kernel, Walk, Physical;
    LoopAgrees(fs, dir, q, hops);
    WalkResolves(fs, dir, q, [], hops);
    var a, k := Walk(fs, dir, q, [], hops).value, Kernel(fs, dir, q, hops);
    if a.tail == [] {
      assert a.dest + [] == a.dest;
      PhysicalIsThere(fs, a.dest);
    } else {
      assert a.tail == [a.tail[0]];
    }
  }

  lemma PhysicalIsThere(fs: Fs, p: Path)
    requires Physical(fs, p)
    ensures !fs.look(p).Missing?
  {
  }

  /** The recursive walk gives a directory for whatever ends in a slash. */
  lemma {:induction false} SlashNeedsDir(fs: Fs, dir: Path, q: string, hops: nat)
    requires hops <= MAX_HOPS && Stands(fs, dir) && EndsInSlash(q) && Kernel(fs, dir, q, hops).Gives?
    ensures fs.look(Kernel(fs, dir, q, hops).path).Dir?
    decreases MAX_HOPS - hops, |q|, 0
  {
    hide Kernel, Walk, Physical;
    UnfoldKernel(fs, dir, q, hops);
    var (c, more) := Cut(q);
    PhysicalParent(fs, dir);
    assert more.Some?;
    var rest := more.value;
    assert rest != "" ==> EndsInSlash(rest);
    if c == "" || c == "." {
      SlashOrEnd(fs, dir, rest, hops);
    } else if c == ".." {
      SlashOrEnd(fs, Parent(dir), rest, hops);
    } else if fs.look(dir + [c]).Dir? {
      PhysicalChild(fs, dir, c);
      SlashOrEnd(fs, dir + [c], rest, hops);
    } else {
      var body := fs.look(dir + [c]).body;
      StartStands(fs, dir, body);
      GivenIsArrived(fs, Start(dir, body), Strip(body), hops + 1);
      var x := Kernel(fs, Start(dir, body), Strip(body), hops + 1);
      SlashOrEnd(fs, x.path, rest, x.hops);
    }
  }

  lemma SlashOrEnd(fs: Fs, dir: Path, rest: string, hops: nat)
    requires hops <= MAX_HOPS && Stands(fs, dir) && (rest == "" || EndsInSlash(rest)) &&
             Kernel(fs, dir, rest, hops).Gives?
    ensures fs.look(Kernel(fs, dir, rest, hops).path).Dir?
    decreases MAX_HOPS - hops, |rest|, 1
  {
    hide Kernel, Walk, Physical;
    UnfoldKernel(fs, dir, rest, hops);
    if rest != "" {
      SlashNeedsDir(fs, dir, rest, hops);
    }
  }

  /** The loop is the recursive walk. On a filesystem whose link bodies are not empty and do not end in a slash, from
      any
      directory and for every path text, path and number of links: the loop arrives there, at a directory or without a
      slash at the end of the text, exactly when the recursive walk gives it and it is not missing. */
  lemma LoopIsKernel(fs: Fs, dir: Path, q: string, hops: nat, p: Path, h: nat)
    requires hops <= MAX_HOPS && Tidy(fs) && Stands(fs, dir)
    ensures Arrives(fs, dir, q, hops, p, h) && (fs.look(p).Dir? || !EndsInSlash(q)) <==>
              Kernel(fs, dir, q, hops) == Gives(p, h) && !fs.look(p).Missing?
  {
    hide Kernel, Walk, Physical;
    if Arrives(fs, dir, q, hops, p, h) {
      WalkResolves(fs, dir, q, [], hops);
      PhysicalIsThere(fs, p);
      if fs.look(p).Dir? || !EndsInSlash(q) {
        LoopIsRight(fs, dir, q, hops, p, h);
      }
    }
    if Kernel(fs, dir, q, hops) == Gives(p, h) && !fs.look(p).Missing? {
      GivenIsArrived(fs, dir, q, hops);
      if EndsInSlash(q) {
        SlashNeedsDir(fs, dir, q, hops);
      }
    }
  }

  /** And such bodies part the two: a link with an empty body, or with a slash behind what turns out a file, is accepted
      by the loop and refused by the recursive walk, wherever it stands. */
  lemma UntidyLinkParts(fs: Fs, dir: Path, c: string, hops: nat, p: Path, h: nat)
    requires hops < MAX_HOPS && Stands(fs, dir) && IsName(c) && fs.look(dir + [c]).Link?
    requires var body := fs.look(dir + [c]).body;
             || (body == "" && p == dir && h == hops + 1)
             || (&& EndsInSlash(Strip(body)) && Arrives(fs, Start(dir, body), Strip(body), hops + 1, p, h)
                 && !fs.look(p).Dir?)
    ensures Arrives(fs, dir, c, hops, p, h) && Kernel(fs, dir, c, hops) == Fails
  {
    hide Kernel, Walk, Physical, Cut;
    assert c + "" == c;
    CutName(c, "");
    UnfoldKernel(fs, dir, c, hops);
    UnfoldWalk(fs, dir, c, [], hops);
    var body := fs.look(dir + [c]).body;
    if body == "" {
      WalkEnds(fs, dir, hops + 1);
    } else {
      StartStands(fs, dir, body);
      if Kernel(fs, Start(dir, body), Strip(body), hops + 1).Gives? {
        GivenIsArrived(fs, Start(dir, body), Strip(body), hops + 1);
        SlashNeedsDir(fs, Start(dir, body), Strip(body), hops + 1);
      }
    }
  }

  /** A link body with a slash behind a file is accepted here and refused there. */
  lemma TrailingSlashAccepted(fs: Fs)
    requires fs.look == ((p: Path) =>
      if p == [] then Dir else if p == ["f"] then File else if p == ["l"] then Link("f/") else Missing)
    ensures Walk(fs, [], "l", [], 0) == Some(Arrival(["f"], [], 1)) && Kernel(fs, [], "l", 0) == Fails
  {
    hide Kernel, Walk, Cut;
    CutName("l", "");
    CutName("f", "/");
    assert "l" + "" == "l" && "f" + "/" == "f/" && [] + ["l"] == ["l"] && [] + ["f"] == ["f"];
    UnfoldKernel(fs, [], "l", 0);
    UnfoldKernel(fs, [], "f/", 1);
    UnfoldWalk(fs, [], "l", [], 0);
    UnfoldWalk(fs, [], "f/", [], 1);
    WalkEnds(fs, ["f"], 1);
  }

  // ----- Containment -----

  function Text(p: Path): string {
    if p == [] then "" else "/" + p[0] + Text(p[1..])
  }

  function Show(p: Path): string {
    if p == [] then "/" else Text(p)
  }

  predicate Contains(root: string, p: string) {
    p == root || root + "/" <= p
  }

  /** The root itself, or below it. */
  predicate Under(root: Path, p: Path) {
    root <= p
  }

  lemma {:induction false} CutName(c: string, s: string)
    requires '/' !in c && (s == "" || s[0] == '/')
    ensures Cut(c + s) == (c, if s == "" then None else Some(s[1..]))
    decreases |c|
  {
    if c != "" {
      CutName(c[1..], s);
      assert (c + s)[1..] == c[1..] + s && (c + s)[0] == c[0];
      assert [c[0]] + c[1..] == c;
    } else {
      assert c + s == s;
    }
  }

  /** Texts of paths are prefixes of each other exactly as the paths are. */
  lemma {:induction false} TextPrefix(r: Path, p: Path)
    requires AllNames(r) && AllNames(p)
    ensures Text(r) + "/" <= Text(p) <==> r <= p && r != p
    ensures Text(r) == Text(p) <==> r == p
    decreases |r|
  {
    if r != [] && p != [] {
      var rr, pp := r[1..], p[1..];
      TextPrefix(rr, pp);
      var a, b, s, t := r[0], p[0], Text(rr), Text(pp);
      assert r == [a] + rr && p == [b] + pp;
      assert Text(r) == "/" + a + s && Text(p) == "/" + b + t;
      assert s == "" || s[0] == '/';
      assert t == "" || t[0] == '/';
      hide Text;
      SlashPrefix(a, s, b, t);
    }
  }

  lemma SlashPrefix(a: string, s: string, b: string, t: string)
    requires '/' !in a && '/' !in b && (s == "" || s[0] == '/') && (t == "" || t[0] == '/')
    ensures "/" + a + s + "/" <= "/" + b + t <==> a == b && s + "/" <= t
    ensures "/" + a + s == "/" + b + t <==> a == b && s == t
  {
    hide Cut;
    Equal(a, s, b, t);
    Prefixed(a, s, b, t);
  }

  lemma Equal(a: string, s: string, b: string, t: string)
    requires '/' !in a && '/' !in b && (s == "" || s[0] == '/') && (t == "" || t[0] == '/')
    ensures "/" + a + s == "/" + b + t <==> a == b && s == t
  {
    hide Cut;
    var x, y := "/" + a + s, "/" + b + t;
    if x == y {
      assert x[1..] == a + s && y[1..] == b + t;
      CutName(a, s);
      CutName(b, t);
      assert (a + s)[|a|..] == s && (b + t)[|b|..] == t;
    }
  }

  lemma Prefixed(a: string, s: string, b: string, t: string)
    requires '/' !in a && '/' !in b && (s == "" || s[0] == '/') && (t == "" || t[0] == '/')
    ensures "/" + a + s + "/" <= "/" + b + t <==> a == b && s + "/" <= t
  {
    var x, y := "/" + a + s + "/", "/" + b + t;
    if x <= y {
      var z := y[|x|..];
      assert y == x + z;
      assert y[1..] == b + t;
      assert y[1..] == a + (s + "/" + z);
      CutName(b, t);
      CutName(a, s + "/" + z);
      hide Cut;
      assert a == b;
      assert t == y[1..][|b|..] == s + "/" + z;
    }
    if a == b && s + "/" <= t {
      var z := t[|s| + 1..];
      assert t == s + "/" + z;
      assert y == x + z;
    }
  }

  /** `contains` on texts is containment of paths, except that nothing is below the root directory itself. */
  lemma ContainsIff(root: Path, p: Path)
    requires AllNames(root) && AllNames(p)
    ensures Contains(Show(root), Show(p)) <==> if root == [] then p == [] else Under(root, p)
  {
    TextPrefix(root, p);
    if root == [] && p != [] {
      assert Text(p)[0] == '/' && Text(p)[1] == p[0][0] != '/';
    }
    if root != [] && p == [] {
      assert |Text(root)| > 1;
    }
  }

  /** filepath.Clean of root/rel: ".." is applied to the spelling. */
  function Clean(stack: Path, q: string): (r: Path)
    requires AllNames(stack)
    ensures AllNames(r)
    decreases |q|
  {
    var (c, more) := Cut(q);
    var next := if c == "" || c == "." then stack else if c == ".." then Parent(stack) else stack + [c];
    if more.None? then next else Clean(next, more.value)
  }

  /** `Resolve`: what it accepts is spelled under the root, and every walk of it that succeeds ends under the root. */
  method ResolveUnder(fs: Fs, root: Path, rel: string) returns (r: Option<string>)
    requires fs.look([]).Dir? && AllNames(root)
    ensures r.Some? ==>
              && r.value == Show(Clean(root, rel)) && Under(root, Clean(root, rel))
              && (rel == "" || rel[0] != '/')
              && (var k := Kernel(fs, [], r.value[1..], 0); k.Gives? ==> Under(root, k.path))
    ensures rel != "" && rel[0] == '/' ==> r.None?
    ensures r.None? && (rel == "" || rel[0] != '/') && root != [] && Under(root, Clean(root, rel)) ==>
              var w := Walk(fs, [], Show(Clean(root, rel))[1..], [], 0); w.None? || !Under(root, w.value.Path())
  {
    hide Kernel, Walk, Clean;
    if rel != "" && rel[0] == '/' {
      return None;
    }
    var p := Clean(root, rel);
    var cleaned := Show(p);
    ContainsIff(root, p);
    if !Contains(Show(root), cleaned) {
      return None;
    }
    var w := EvalExistingPrefix(fs, cleaned);
    if w.None? {
      return None;
    }
    var resolved := w.value.Path();
    assert AllNames(resolved);
    ContainsIff(root, resolved);
    if !Contains(Show(root), Show(resolved)) {
      return None;
    }
    if Kernel(fs, [], cleaned[1..], 0).Gives? {
      LoopAgrees(fs, [], cleaned[1..], 0);
    }
    return Some(cleaned);
  }

  // ----- Resolving a resolved path -----

  /** The components of a path as text. */
  function Components(p: Path): string {
    if p == [] then "" else p[0] + Text(p[1..])
  }

  lemma CutComponents(p: Path)
    requires AllNames(p) && p != []
    ensures Components(p) != ""
    ensures Cut(Components(p)) == (p[0], if |p| == 1 then None else Some(Components(p[1..])))
  {
    hide Cut, Text;
    var s := Text(p[1..]);
    TextIs(p[1..]);
    CutName(p[0], s);
    if |p| > 1 {
      hide Components;
      assert s[1..] == Components(p[1..]);
    }
  }

  lemma TextIs(p: Path)
    ensures Text(p) == if p == [] then "" else "/" + Components(p)
  {
  }

  lemma {:induction false} TailIsAppended(fs: Fs, dest: Path, tail: Path, todo: Path)
    requires AllNames(todo) && tail != []
    ensures Walk(fs, dest, Components(todo), tail, 0) == Some(Arrival(dest, tail + todo, 0))
    decreases |todo|
  {
    hide Walk, Cut;
    UnfoldWalk(fs, dest, Components(todo), tail, 0);
    if todo == [] {
      assert tail + todo == tail;
    } else {
      CutComponents(todo);
      TailIsAppended(fs, dest, tail + [todo[0]], todo[1..]);
      assert tail + [todo[0]] + todo[1..] == tail + todo;
    }
  }

  /** A resolved path resolves to itself, over no link, from any of its prefixes. */
  lemma {:induction false} ResolvedIsFixed(fs: Fs, done: Path, todo: Path, tail: Path)
    requires Resolved(fs, done + todo, tail)
    ensures Walk(fs, done, Components(todo + tail), [], 0) == Some(Arrival(done + todo, tail, 0))
    decreases |todo|
  {
    hide Walk, Cut, Components;
    var p := todo + tail;
    forall i | 0 <= i < |todo| ensures IsName(todo[i]) {
      assert todo[i] == (done + todo)[|done| + i];
    }
    if p == [] {
      NoComponents();
      WalkEnds(fs, done, 0);
      assert done + p == done;
    } else {
      CutComponents(p);
      UnfoldWalk(fs, done, Components(p), [], 0);
      if todo == [] {
        assert done + todo == done && p == tail;
        TailIsAppended(fs, done, [tail[0]], tail[1..]);
        NoComponents();
        assert [tail[0]] + tail[1..] == tail;
      } else {
        assert p[1..] == todo[1..] + tail && done + [todo[0]] + todo[1..] == done + todo;
        assert done + [todo[0]] + p[1..] == done + p;
        NoComponents();
        ResolvedIsFixed(fs, done + [todo[0]], todo[1..], tail);
        NextIsThere(fs, done, todo, tail);
      }
    }
  }

  lemma NoComponents()
    ensures Components([]) == ""
    ensures forall p: Path :: |p| == 0 ==> Components(p) == ""
  {
  }

  lemma NextIsThere(fs: Fs, done: Path, todo: Path, tail: Path)
    requires Resolved(fs, done + todo, tail) && todo != []
    ensures var x := fs.look(done + [todo[0]]); x.Dir? || (x.File? && |todo + tail| == 1)
  {
    var d := done + todo;
    if |todo| > 1 {
      assert d[..|done| + 1] == done + [todo[0]];
    } else {
      assert d == done + [todo[0]];
    }
  }
}
