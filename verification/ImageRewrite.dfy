/** Rewriting a request part (decide/image.go:80-162, 462-492): the logged images are committed in document
    order, each decoded, admitted to the set and replaced by its label. */
module ImageRewrite {

  import opened Decimal
  import opened JsonText
  import opened ImageScan

  // ----- The images of a request -----

  /** The hex SHA-256 of some bytes. */
  type Digest = s: string | |s| == 64 witness seq(64, _ => '0')

  datatype Placement = State | Instructions | Criteria

  /** A block that decoded and passed `checkImage`. */
  datatype Block = Block(data: string, media: string)

  datatype Picture = Picture(sum: Digest, media: string, data: string, places: set<Placement>)

  /** What the backend carries, and the functions of libraries: the digest and the decoder. */
  datatype Backend = Backend(places: set<Placement>, media: seq<string>, byPosition: bool,
                             digest: string -> Digest, decode: string -> Option<Block>)

  datatype Problem = MediaConflict | PlaceUnsupported | MediaUnsupported | NotAnImage | ForeignMember(key: string)

  datatype Refusal = Refusal(path: seq<PathStep>, problem: Problem)

  datatype Album = Album(images: seq<Picture>, index: map<string, nat>)

  /** The index finds each picture by its digest, and nothing else. */
  predicate Indexed(be: Backend, a: Album) {
    && (forall i :: 0 <= i < |a.images| ==> a.images[i].sum in a.index && a.index[a.images[i].sum] == i)
    && (forall h :: h in a.index ==> a.index[h] < |a.images| && a.images[a.index[h]].sum == h)
    && (forall i :: 0 <= i < |a.images| ==> a.images[i].sum == be.digest(a.images[i].data))
  }

  /** Why a block is not admitted. */
  function Objection(be: Backend, a: Album, b: Block, place: Placement): Option<Problem>
    requires Indexed(be, a)
  {
    var h := be.digest(b.data);
    if h in a.index && a.images[a.index[h]].media != b.media then Some(MediaConflict)
    else if place !in be.places then Some(PlaceUnsupported)
    else if be.media != [] && b.media !in be.media then Some(MediaUnsupported)
    else None
  }

  function Admitted(be: Backend, a: Album, b: Block, place: Placement): (r: Album)
    requires Indexed(be, a)
    ensures Indexed(be, r) && Grows(a, r)
    ensures be.digest(b.data) in r.index && place in r.images[r.index[be.digest(b.data)]].places
  {
    var h := be.digest(b.data);
    if h in a.index then
      var i := a.index[h];
      a.(images := a.images[i := a.images[i].(places := a.images[i].places + {place})])
    else
      Album(a.images + [Picture(h, b.media, b.data, {place})], a.index[h := |a.images|])
  }

  lemma IndexBound(be: Backend, a: Album, b: Block)
    requires Indexed(be, a)
    ensures var h := be.digest(b.data); h in a.index ==> a.index[h] < |a.images| && a.images[a.index[h]].sum == h
  {
  }

  lemma AdmittedIs(be: Backend, a: Album, b: Block, place: Placement)
    requires Indexed(be, a)
    ensures var h := be.digest(b.data);
            if h in a.index then
              var i := a.index[h];
              i < |a.images| && Admitted(be, a, b, place) ==
                Album(a.images[i := a.images[i].(places := a.images[i].places + {place})], a.index)
            else
              Admitted(be, a, b, place) ==
                Album(a.images + [Picture(h, b.media, b.data, {place})], a.index[h := |a.images|])
  {
    hide Grows;
  }

  /** Pictures keep their number, their bytes and their media type, and only gain places. */
  predicate Grows(a: Album, b: Album) {
    && |a.images| <= |b.images|
    && (forall h :: h in a.index ==> h in b.index && b.index[h] == a.index[h])
    && (forall i :: 0 <= i < |a.images| ==>
          && b.images[i].(places := a.images[i].places) == a.images[i]
          && a.images[i].places <= b.images[i].places)
  }

  function Label(be: Backend, index: map<string, nat>, b: Block): string {
    var h := be.digest(b.data);
    if be.byPosition then "\"[image " + Itoa(1 + if h in index then index[h] else 0) + "]\""
    else "\"\\u003cimage:" + h[..32] + "\\u003e\""
  }

  /** The label of an image's text in the finished album. */
  function LabelOf(be: Backend, a: Album): string -> string {
    (text: string) => match be.decode(text) case None => text case Some(b) => Label(be, a.index, b)
  }

  /** By position, two images share a label exactly when they share a digest. */
  lemma LabelsTellImagesApart(be: Backend, a: Album, b: Block, c: Block)
    requires Indexed(be, a) && be.byPosition && be.digest(b.data) in a.index && be.digest(c.data) in a.index
    ensures Label(be, a.index, b) == Label(be, a.index, c) <==> be.digest(b.data) == be.digest(c.data)
  {
    var i, j := a.index[be.digest(b.data)], a.index[be.digest(c.data)];
    if Label(be, a.index, b) == Label(be, a.index, c) {
      assert Label(be, a.index, b)[8..|Label(be, a.index, b)| - 2] == Itoa(1 + i);
      assert Label(be, a.index, c)[8..|Label(be, a.index, c)| - 2] == Itoa(1 + j);
      DigitsInjective(1 + i, 1 + j);
    }
  }

  class ImageSet {
    const be: Backend
    var images: seq<Picture>
    var index: map<string, nat>

    constructor (be: Backend)
      ensures this.be == be && Valid() && View() == Album([], map[])
    {
      this.be := be;
      images := [];
      index := map[];
    }

    ghost function View(): Album
      reads this
    {
      Album(images, index)
    }

    ghost predicate Valid()
      reads this
    {
      Indexed(be, View())
    }

    method Add(b: Block, place: Placement) returns (tag: string, objection: Option<Problem>)
      requires Valid()
      modifies this`images, this`index
      ensures Valid() && objection == Objection(be, old(View()), b, place)
      ensures objection.Some? ==> View() == old(View())
      ensures objection.None? ==> View() == Admitted(be, old(View()), b, place) && tag == Label(be, index, b)
    {
      hide Indexed, Grows, Admitted;
      IndexBound(be, View(), b);
      AdmittedIs(be, View(), b, place);
      var h := be.digest(b.data);
      var seen := h in index;
      if seen && images[index[h]].media != b.media {
        return "", Some(MediaConflict);
      }
      if place !in be.places {
        return "", Some(PlaceUnsupported);
      }
      if |be.media| > 0 && b.media !in be.media {
        return "", Some(MediaUnsupported);
      }
      var i;
      if !seen {
        i := |images|;
        images := images + [Picture(h, b.media, b.data, {})];
        index := index[h := i];
      } else {
        i := index[h];
      }
      assert !seen ==> {} + {place} == {place};
      images := images[i := images[i].(places := images[i].places + {place})];
      assert !seen ==> images == old(images) + [Picture(h, b.media, b.data, {place})];
      if be.byPosition {
        tag := "\"[image " + Itoa(i + 1) + "]\"";
      } else {
        tag := "\"\\u003cimage:" + images[i].sum[..32] + "\\u003e\"";
      }
      objection := None;
    }

    /** One event: refused, or admitted and labelled. */
    method CommitOne(src: string, e: Event, ghost f: Found, place: Placement)
      returns (l: string, problem: Option<Problem>)
      requires Valid() && e.start <= e.end <= |src| && f.start == e.start && f.end == e.end && f.foreign == e.foreign
      modifies this`images, this`index
      ensures Valid()
      ensures var (b, bad) := Judged(be, src, f);
              && problem == (if bad.Some? then bad else Objection(be, old(View()), b, place))
              && (problem.Some? ==> View() == old(View()))
              && (problem.None? ==> View() == Admitted(be, old(View()), b, place) && l == Label(be, index, b)
                                    && be.decode(src[e.start..e.end]) == Some(b))
    {
      hide Indexed, Objection, Admitted, Label;
      if e.foreign.Some? {
        return "", Some(ForeignMember(e.foreign.value));
      }
      var block := be.decode(src[e.start..e.end]);
      if block.None? {
        return "", Some(NotAnImage);
      }
      l, problem := Add(block.value, place);
    }

    /** The loop of `commit` and the last line of `rewrite`. */
    method CommitAll(src: string, nodes: seq<PathNode>, events: seq<Event>, place: Placement)
      returns (out: string, refusal: Option<Refusal>)
      requires Valid() && Linked(nodes) && EventsIn(nodes, events)
      requires InOrder(src, Resolve(nodes, events), 0, |src|) && InText(src, Resolve(nodes, events))
      modifies this`images, this`index
      ensures Valid()
      ensures (View(), refusal) == Commit(be, src, Resolve(nodes, events), old(View()), place)
      ensures refusal.None? ==> out == Splice(src, Resolve(nodes, events), LabelOf(be, View()), 0, |src|)
    {
      hide Indexed, Linked, PathOf, Admitted, Objection, Judged, Grows, Splice, InOrder, Label, LabelOf, Commit;
      ghost var fs := Resolve(nodes, events);
      ghost var (final, verdict) := Commit(be, src, fs, View(), place);
      ghost var tag := LabelOf(be, final);
      var last: nat := 0;
      out := "";
      assert fs[0..] == fs;
      for n := 0 to |events|
        invariant Valid() && last <= |src|
        invariant Commit(be, src, fs[n..], View(), place) == (final, verdict)
        invariant InOrder(src, fs[n..], last, |src|)
        invariant verdict.None? ==> out + Splice(src, fs[n..], tag, last, |src|) == Splice(src, fs, tag, 0, |src|)
      {
        var e := events[n];
        ghost var rest := fs[n..];
        assert rest[0] == fs[n] && rest[1..] == fs[n + 1..];
        UnfoldCommit(be, src, rest, View(), place);
        UnfoldInOrder(src, rest, tag, last, |src|);
        ghost var before := View();
        var l, problem := CommitOne(src, e, rest[0], place);
        if problem.Some? {
          var path := ReadPath(nodes, e.node);
          return "", Some(Refusal(path, problem.value));
        }
        CommitGrows(be, src, fs[n + 1..], View(), place);
        AdmittedIsIndexed(be, before, Judged(be, src, rest[0]).0, place);
        LabelStays(be, View(), final, src[e.start..e.end]);
        ghost var tail := Splice(src, rest[1..], tag, rest[0].end, |src|);
        assert out + (src[last..e.start] + l + tail) == out + src[last..e.start] + l + tail;
        out := out + src[last..e.start] + l;
        last := e.end;
      }
      assert fs[|events|..] == [];
      UnfoldCommit(be, src, [], View(), place);
      UnfoldInOrder(src, [], tag, last, |src|);
      out := out + src[last..];
      refusal := None;
    }

    /** `rewrite`: the part with exactly its outermost images replaced by their labels, or the first refusal. */
    method Rewrite(raw: string, rules: Rules, place: Placement, ghost lead: string, ghost j: Json, ghost tail: string)
      returns (out: string, refusal: Option<Refusal>)
      requires Valid() && rules.strict
      requires Part(raw, lead, Render(j), tail) && WellFormed(j) && AllWs(lead) && AllWs(tail)
      modifies this`images, this`index
      ensures Valid() && InText(raw, Outer(rules, j, |lead|, []))
      ensures (View(), refusal) == Commit(be, raw, Outer(rules, j, |lead|, []), old(View()), place)
      ensures refusal.None? ==> out == lead + Render(Relabel(rules, j, LabelOf(be, View()))) + tail
    {
      hide Part, Render, WellFormed, AllWs, Outer, Relabel, LabelOf, Indexed, Commit, Splice, InOrder, InText, At,
           Delimited, Logged, Linked, EventsIn, PathOf, Resolve, SkipWs;
      ghost var found := Outer(rules, j, |lead|, []);
      PartAt(raw, lead, j, tail);
      WholePart(raw, rules, lead, j, tail, x => x);
      WholePart(raw, rules, lead, j, tail, LabelOf(be, Commit(be, raw, found, View(), place).0));
      if '{' !in raw {
        NoBraceNoImage(raw, found, 0, |raw|, LabelOf(be, View()));
        UnfoldCommit(be, raw, found, View(), place);
        return raw, None;
      }
      var w := new Walker(raw, rules);
      var i := FindNonWs(raw, 0);
      RootPath(w.nodes);
      var end := w.Value(i, j, []);
      LogGrows([], [], w.nodes, w.events, found);
      AllLogged(w.nodes, w.events, found);
      out, refusal := CommitAll(raw, w.nodes, w.events, place);
    }
  }

  /** Collect mode: the digests of every valid image, and no refusal. */
  method CollectHashes(be: Backend, raw: string, rules: Rules, hashes: set<string>, ghost lead: string, ghost j: Json,
                       ghost tail: string)
    returns (r: set<string>)
    requires !rules.strict
    requires Part(raw, lead, Render(j), tail) && WellFormed(j) && AllWs(lead) && AllWs(tail)
    ensures InText(raw, Outer(rules, j, |lead|, []))
    ensures r == hashes + Hashes(be, raw, Outer(rules, j, |lead|, []))
  {
    hide Part, Render, WellFormed, AllWs, Outer, Relabel, Splice, InOrder, InText, At, Delimited, Logged, Linked,
         EventsIn, PathOf, Resolve, SkipWs, Hashes;
    ghost var found := Outer(rules, j, |lead|, []);
    PartAt(raw, lead, j, tail);
    WholePart(raw, rules, lead, j, tail, x => x);
    r := hashes;
    if '{' !in raw {
      NoBraceNoImage(raw, found, 0, |raw|, x => x);
      NoHashes(be, raw);
      return;
    }
    var w := new Walker(raw, rules);
    var i := FindNonWs(raw, 0);
    RootPath(w.nodes);
    var end := w.Value(i, j, []);
    LogGrows([], [], w.nodes, w.events, found);
    AllLogged(w.nodes, w.events, found);
    NoHashes(be, raw);
    assert found[..0] == [];
    var nodes, events := w.nodes, w.events;
    for n := 0 to |events|
      invariant InText(raw, found[..n])
      invariant r == hashes + Hashes(be, raw, found[..n])
    {
      var e := events[n];
      NextHash(be, raw, found, n);
      ResolvedAt(nodes, events, n);
      var block := be.decode(raw[e.start..e.end]);
      if block.Some? {
        r := r + {be.digest(block.value.data)};
      }
    }
    assert found[..|found|] == found;
  }

  /** The digests of the objects that decode. */
  function Hashes(be: Backend, src: string, fs: seq<Found>): set<string>
    requires InText(src, fs)
  {
    set k | 0 <= k < |fs| && be.decode(src[fs[k].start..fs[k].end]).Some? ::
      be.digest(be.decode(src[fs[k].start..fs[k].end]).value.data)
  }

  lemma NoHashes(be: Backend, src: string)
    ensures InText(src, []) && Hashes(be, src, []) == {}
  {
  }

  lemma NextHash(be: Backend, src: string, fs: seq<Found>, n: nat)
    requires InText(src, fs) && n < |fs|
    ensures InText(src, fs[..n]) && InText(src, fs[..n + 1])
    ensures fs[n].start <= fs[n].end <= |src|
    ensures var block := be.decode(src[fs[n].start..fs[n].end]);
            Hashes(be, src, fs[..n + 1]) ==
              Hashes(be, src, fs[..n]) + if block.Some? then {be.digest(block.value.data)} else {}
  {
    var a, b := fs[..n], fs[..n + 1];
    assert b == a + [fs[n]];
    var block := be.decode(src[fs[n].start..fs[n].end]);
    var more: set<string> := if block.Some? then {be.digest(block.value.data)} else {};
    forall h ensures h in Hashes(be, src, b) <==> h in Hashes(be, src, a) + more {
      if h in Hashes(be, src, a) {
        var k :| 0 <= k < |a| && be.decode(src[a[k].start..a[k].end]).Some? &&
          h == be.digest(be.decode(src[a[k].start..a[k].end]).value.data);
        assert b[k] == a[k];
      }
      if h in more {
        assert b[n] == fs[n];
      }
    }
  }

  lemma ResolvedAt(nodes: seq<PathNode>, events: seq<Event>, n: nat)
    requires Linked(nodes) && EventsIn(nodes, events) && n < |events|
    ensures var f := Resolve(nodes, events)[n]; f.start == events[n].start && f.end == events[n].end
  {
  }

  // ----- From the walker's log to the part -----

  /** `path` follows the parent links up. */
  method ReadPath(nodes: seq<PathNode>, node: int) returns (path: seq<PathStep>)
    requires Linked(nodes) && -1 <= node < |nodes|
    ensures path == PathOf(nodes, node)
  {
    path := [];
    var n := node;
    while n >= 0
      invariant -1 <= n < |nodes| && PathOf(nodes, n) + path == PathOf(nodes, node)
      decreases n + 1
    {
      path := [nodes[n].step] + path;
      n := nodes[n].parent;
    }
  }

  lemma UnfoldCommit(be: Backend, src: string, fs: seq<Found>, a: Album, place: Placement)
    requires InText(src, fs) && Indexed(be, a)
    ensures fs == [] ==> Commit(be, src, fs, a, place) == (a, None)
    ensures fs != [] ==>
              var (b, bad) := Judged(be, src, fs[0]);
              var problem := if bad.Some? then bad else Objection(be, a, b, place);
              Commit(be, src, fs, a, place) ==
              if problem.Some? then (a, Some(Refusal(fs[0].path, problem.value)))
              else Commit(be, src, fs[1..], Admitted(be, a, b, place), place)
  {
    hide Indexed, Objection, Admitted, Grows, Judged;
  }

  lemma UnfoldInOrder(src: string, fs: seq<Found>, tag: string -> string, from: nat, to: nat)
    requires InOrder(src, fs, from, to)
    ensures from <= to <= |src|
    ensures fs == [] ==> Splice(src, fs, tag, from, to) == src[from..to]
    ensures fs != [] ==>
              && from <= fs[0].start < fs[0].end <= |src| && InOrder(src, fs[1..], fs[0].end, to)
              && Splice(src, fs, tag, from, to) ==
                 src[from..fs[0].start] + tag(src[fs[0].start..fs[0].end]) + Splice(src, fs[1..], tag, fs[0].end, to)
  {
    InOrderBounds(src, fs, from, to);
  }

  lemma AdmittedIsIndexed(be: Backend, a: Album, b: Block, place: Placement)
    requires Indexed(be, a)
    ensures be.digest(b.data) in Admitted(be, a, b, place).index
  {
  }

  /** A label does not change while the album grows. */
  lemma LabelStays(be: Backend, a: Album, b: Album, text: string)
    requires Grows(a, b) && be.decode(text).Some? && be.digest(be.decode(text).value.data) in a.index
    ensures LabelOf(be, b)(text) == Label(be, a.index, be.decode(text).value)
  {
  }

  lemma PartAt(raw: string, lead: string, j: Json, tail: string)
    requires Part(raw, lead, Render(j), tail) && WellFormed(j) && AllWs(lead) && AllWs(tail)
    ensures At(raw, |lead|, Render(j)) && Delimited(raw, |lead| + |Render(j)|) && SkipWs(raw, 0) == |lead| &&
            |lead| < |raw|
  {
    FirstIsNotWs(j);
    hide Render, WellFormed;
    SliceAt(raw, 0, |raw|);
    assert raw[0..|raw|] == lead + (Render(j) + tail);
    AtSplit(raw, 0, lead, Render(j) + tail);
    AtSplit(raw, |lead|, Render(j), tail);
    AtFirst(raw, |lead|, Render(j));
    SkipsWs(raw, 0, lead);
  }

  /** The found objects of a part, and what splicing labels into it gives. */
  ghost predicate WholeOf(raw: string, found: seq<Found>, tag: string -> string, out: string) {
    InText(raw, found) && InOrder(raw, found, 0, |raw|) && Splice(raw, found, tag, 0, |raw|) == out
  }

  /** In the whole part, the white space around the value stays. */
  lemma WholePart(raw: string, rules: Rules, lead: string, j: Json, tail: string, tag: string -> string)
    requires Part(raw, lead, Render(j), tail) && WellFormed(j)
    ensures WholeOf(raw, Outer(rules, j, |lead|, []), tag, lead + Render(Relabel(rules, j, tag)) + tail)
  {
    hide *;
    PartMeans(raw, lead, Render(j), tail);
    SpliceIsRelabel(raw, rules, j, |lead|, [], tag);
    Framed(raw, Outer(rules, j, |lead|, []), tag, lead, Render(j), tail, Render(Relabel(rules, j, tag)));
  }

  lemma Framed(raw: string, found: seq<Found>, tag: string -> string, lead: string, value: string, tail: string,
               out: string)
    requires At(raw, 0, lead) && Spliced(raw, found, tag, |lead|, |lead| + |value|, out)
    requires At(raw, |lead| + |value|, tail) && |lead| + |value| + |tail| == |raw|
    ensures WholeOf(raw, found, tag, lead + out + tail)
  {
    hide *;
    var end := |lead| + |value|;
    SpliceNothing(raw, tag, end, tail);
    SpliceHead(raw, found, tag, 0, lead, end, out);
    SpliceJoin(raw, found, [], tag, 0, end, |raw|, lead + out, tail);
    assert found + [] == found;
    SplicedIsWhole(raw, found, tag, lead + out + tail);
  }

  lemma SplicedIsWhole(src: string, fs: seq<Found>, tag: string -> string, text: string)
    requires Spliced(src, fs, tag, 0, |src|, text)
    ensures WholeOf(src, fs, tag, text)
  {
    InOrderIsInText(src, fs, 0, |src|);
  }

  predicate Part(raw: string, lead: string, value: string, tail: string) {
    raw == lead + value + tail
  }

  lemma PartMeans(raw: string, lead: string, value: string, tail: string)
    requires Part(raw, lead, value, tail)
    ensures At(raw, 0, lead) && At(raw, |lead|, value) && At(raw, |lead| + |value|, tail) &&
            |raw| == |lead| + |value| + |tail|
  {
  }

  lemma NoBraceNoImage(raw: string, found: seq<Found>, from: nat, to: nat, tag: string -> string)
    requires InOrder(raw, found, 0, |raw|) && '{' !in raw
    ensures found == [] && Splice(raw, found, tag, 0, |raw|) == raw
  {
  }

  lemma RootPath(nodes: seq<PathNode>)
    requires Linked(nodes)
    ensures PathOf(nodes, -1) == []
  {
  }

  lemma AllLogged(nodes: seq<PathNode>, events: seq<Event>, found: seq<Found>)
    requires Logged([], [], nodes, events, found)
    ensures Linked(nodes) && EventsIn(nodes, events) && Resolve(nodes, events) == found
  {
    assert events[0..] == events;
  }

  // ----- Splicing -----

  /** Disjoint objects in document order between two positions. */
  predicate InOrder(src: string, fs: seq<Found>, from: nat, to: nat) {
    if fs == [] then from <= to <= |src|
    else from <= fs[0].start < fs[0].end <= |src| && src[fs[0].start] == '{' && InOrder(src, fs[1..], fs[0].end, to)
  }

  lemma {:induction false} InOrderBounds(src: string, fs: seq<Found>, from: nat, to: nat)
    requires InOrder(src, fs, from, to)
    ensures from <= to <= |src|
  {
    if fs != [] {
      InOrderBounds(src, fs[1..], fs[0].end, to);
    }
  }

  /** Any two objects in order are apart, the earlier one first. */
  lemma {:induction false} InOrderMeansDisjoint(src: string, fs: seq<Found>, from: nat, to: nat, a: nat, b: nat)
    requires InOrder(src, fs, from, to) && a < b < |fs|
    ensures from <= fs[a].start < fs[a].end <= fs[b].start < fs[b].end <= to
  {
    InOrderBounds(src, fs[1..], fs[0].end, to);
    if a > 0 {
      InOrderMeansDisjoint(src, fs[1..], fs[0].end, to, a - 1, b - 1);
    } else if b > 1 {
      InOrderMeansDisjoint(src, fs[1..], fs[0].end, to, 0, b - 1);
    } else {
      InOrderBounds(src, fs[2..], fs[1].end, to);
      assert fs[1..][1..] == fs[2..];
    }
  }

  lemma InOrderEarlier(src: string, fs: seq<Found>, from: nat, mid: nat, to: nat)
    requires InOrder(src, fs, mid, to) && from <= mid
    ensures InOrder(src, fs, from, to)
  {
  }

  /** The text between two positions with every object replaced by the label of its text. */
  function Splice(src: string, fs: seq<Found>, tag: string -> string, from: nat, to: nat): string
    requires InOrder(src, fs, from, to)
  {
    if fs == [] then src[from..to]
    else src[from..fs[0].start] + tag(src[fs[0].start..fs[0].end]) + Splice(src, fs[1..], tag, fs[0].end, to)
  }

  /** `text` is the text between the positions with the labels spliced in. */
  ghost predicate Spliced(src: string, fs: seq<Found>, tag: string -> string, from: nat, to: nat, text: string) {
    InOrder(src, fs, from, to) && Splice(src, fs, tag, from, to) == text
  }

  lemma {:induction false} SpliceJoin(src: string, a: seq<Found>, b: seq<Found>, tag: string -> string, from: nat,
                                      mid: nat, to: nat, s: string, t: string)
    requires Spliced(src, a, tag, from, mid, s) && Spliced(src, b, tag, mid, to, t)
    ensures Spliced(src, a + b, tag, from, to, s + t)
    decreases a
  {
    if a == [] {
      assert a + b == b;
      SliceAt(src, from, mid);
      SpliceHead(src, b, tag, from, src[from..mid], to, t);
    } else {
      hide *;
      var rest := SpliceTail(src, a, tag, from, mid, s);
      SpliceJoin(src, a[1..], b, tag, a[0].end, mid, to, rest, t);
      SpliceCons(src, a, b, tag, from, to, s, rest, t);
    }
  }

  /** The first object and what follows it. */
  lemma SpliceTail(src: string, a: seq<Found>, tag: string -> string, from: nat, mid: nat,
                   s: string) returns (rest: string)
    requires a != [] && Spliced(src, a, tag, from, mid, s)
    ensures from <= a[0].start < a[0].end <= |src| && src[a[0].start] == '{' &&
            Spliced(src, a[1..], tag, a[0].end, mid, rest)
    ensures s == src[from..a[0].start] + tag(src[a[0].start..a[0].end]) + rest
  {
    rest := Splice(src, a[1..], tag, a[0].end, mid);
  }

  lemma SpliceCons(src: string, a: seq<Found>, b: seq<Found>, tag: string -> string, from: nat, to: nat, s: string,
                   rest: string, t: string)
    requires a != [] && from <= a[0].start < a[0].end <= |src| && src[a[0].start] == '{'
    requires s == src[from..a[0].start] + tag(src[a[0].start..a[0].end]) + rest
    requires Spliced(src, a[1..] + b, tag, a[0].end, to, rest + t)
    ensures Spliced(src, a + b, tag, from, to, s + t)
  {
    assert (a + b)[1..] == a[1..] + b && (a + b)[0] == a[0];
    var h, l := src[from..a[0].start], tag(src[a[0].start..a[0].end]);
    assert h + l + (rest + t) == h + l + rest + t;
  }

  lemma SliceAt(src: string, from: nat, to: nat)
    requires from <= to <= |src|
    ensures At(src, from, src[from..to])
  {
  }

  /** Plain text before the first object stays. */
  lemma SpliceHead(src: string, fs: seq<Found>, tag: string -> string, pos: nat, head: string, to: nat, t: string)
    requires At(src, pos, head) && Spliced(src, fs, tag, pos + |head|, to, t)
    ensures Spliced(src, fs, tag, pos, to, head + t)
  {
    var mid := pos + |head|;
    InOrderBounds(src, fs, mid, to);
    InOrderEarlier(src, fs, pos, mid, to);
    SliceSplit(src, pos, mid, if fs == [] then to else fs[0].start);
    if fs != [] {
      hide InOrder;
      var b, c, d := src[mid..fs[0].start], tag(src[fs[0].start..fs[0].end]), Splice(src, fs[1..], tag, fs[0].end, to);
      assert head + b + c + d == head + (b + c + d);
    }
  }

  lemma SliceSplit(src: string, from: nat, mid: nat, to: nat)
    requires from <= mid <= to <= |src|
    ensures src[from..to] == src[from..mid] + src[mid..to]
  {
  }

  /** A value, the white space behind it, and the rest of its container. */
  lemma SplicePiece(src: string, here: seq<Found>, rest: seq<Found>, tag: string -> string, pos: nat, end: nat,
                    to: nat, v: string, post: string, t: string)
    requires Spliced(src, here, tag, pos, end, v) && At(src, end, post) && Spliced(src, rest, tag, end + |post|, to, t)
    ensures Spliced(src, here + rest, tag, pos, to, v + post + t)
  {
    hide Spliced, At;
    SpliceHead(src, rest, tag, end, post, to, t);
    SpliceJoin(src, here, rest, tag, pos, end, to, v, post + t);
    assert v + (post + t) == v + post + t;
  }

  /** Text without objects. */
  lemma SpliceNothing(src: string, tag: string -> string, pos: nat, text: string)
    requires At(src, pos, text)
    ensures Spliced(src, [], tag, pos, pos + |text|, text)
  {
  }

  // ----- The same on the tree -----

  /** The tree with its outermost images replaced by label strings. */
  function Relabel(r: Rules, j: Json, tag: string -> string): Json
    decreases j
  {
    match j
    case Scalar(_) => j
    case Str(_) => j
    case Arr(elems, pad) => Arr(RelabelElems(r, elems, tag), pad)
    case Obj(members, pad) =>
      if members == [] || JudgeObject(r, members).Plain? then Obj(RelabelMembers(r, members, tag), pad)
      else Str(tag(Render(j)))
  }

  function RelabelElems(r: Rules, elems: seq<Elem>, tag: string -> string): (s: seq<Elem>)
    ensures |s| == |elems|
    decreases elems
  {
    seq(|elems|, i requires 0 <= i < |elems| => elems[i].(value := Relabel(r, elems[i].value, tag)))
  }

  function RelabelMembers(r: Rules, members: seq<Member>, tag: string -> string): (s: seq<Member>)
    ensures |s| == |members|
    decreases members
  {
    seq(|members|, i requires 0 <= i < |members| => members[i].(value := Relabel(r, members[i].value, tag)))
  }

  /** On any value of a text: its outermost images stand in order, and splicing their labels in gives the relabelled
      tree. */
  lemma {:induction false} SpliceIsRelabel(src: string, r: Rules, j: Json, pos: nat, path: seq<PathStep>,
                                           tag: string -> string)
    requires WellFormed(j) && At(src, pos, Render(j))
    ensures Spliced(src, Outer(r, j, pos, path), tag, pos, pos + |Render(j)|, Render(Relabel(r, j, tag)))
    decreases j, 1
  {
    if j.Arr? && j.elems != [] {
      SpliceArray(src, r, j, pos, path, tag);
    } else if j.Obj? && j.members != [] {
      if JudgeObject(r, j.members).Plain? {
        SpliceObject(src, r, j, pos, path, tag);
      } else {
        SpliceImage(src, r, j, pos, path, tag);
      }
    } else {
      SpliceLeaf(src, r, j, pos, path, tag);
    }
  }

  lemma SpliceLeaf(src: string, r: Rules, j: Json, pos: nat, path: seq<PathStep>, tag: string -> string)
    requires At(src, pos, Render(j)) && (j.Arr? ==> j.elems == []) && (j.Obj? ==> j.members == [])
    ensures Spliced(src, Outer(r, j, pos, path), tag, pos, pos + |Render(j)|, Render(Relabel(r, j, tag)))
  {
    assert Outer(r, j, pos, path) == [];
    assert Relabel(r, j, tag) == j by {
      if j.Arr? {
        assert RelabelElems(r, j.elems, tag) == [];
      }
      if j.Obj? {
        assert RelabelMembers(r, j.members, tag) == [];
      }
    }
    hide Relabel, Outer;
    SpliceNothing(src, tag, pos, Render(j));
  }

  lemma SpliceImage(src: string, r: Rules, j: Json, pos: nat, path: seq<PathStep>, tag: string -> string)
    requires WellFormed(j) && At(src, pos, Render(j)) && j.Obj? && j.members != [] && !JudgeObject(r, j.members).Plain?
    ensures Spliced(src, Outer(r, j, pos, path), tag, pos, pos + |Render(j)|, Render(Relabel(r, j, tag)))
  {
    hide *;
    OuterOfObject(r, j, pos, path, OuterMembers(r, j.members, 0, pos + 1 + |j.members[0].pre|, path));
    KindAt(src, pos, j);
    RelabelledImage(r, j, tag);
    SpliceOne(src, Outer(r, j, pos, path), tag, pos, Render(j));
  }

  lemma RelabelledImage(r: Rules, j: Json, tag: string -> string)
    requires j.Obj? && j.members != [] && !JudgeObject(r, j.members).Plain?
    ensures Render(Relabel(r, j, tag)) == tag(Render(j)) && Render(j) != ""
  {
  }

  lemma SpliceOne(src: string, fs: seq<Found>, tag: string -> string, pos: nat, text: string)
    requires At(src, pos, text) && text != "" && src[pos] == '{'
    requires |fs| == 1 && fs[0].start == pos && fs[0].end == pos + |text|
    ensures Spliced(src, fs, tag, pos, pos + |text|, tag(text))
  {
    var end := pos + |text|;
    assert fs[1..] == [];
    assert InOrder(src, fs[1..], end, end);
    assert Splice(src, fs[1..], tag, end, end) == "";
  }

  lemma SpliceArray(src: string, r: Rules, j: Json, pos: nat, path: seq<PathStep>, tag: string -> string)
    requires WellFormed(j) && At(src, pos, Render(j)) && j.Arr? && j.elems != []
    ensures Spliced(src, Outer(r, j, pos, path), tag, pos, pos + |Render(j)|, Render(Relabel(r, j, tag)))
    decreases j, 0
  {
    hide *;
    var head, out := "[" + j.elems[0].pre, RelabelElems(r, j.elems, tag);
    var found := OuterElems(r, j.elems, 0, pos + |head|, path);
    RenderedElems(r, j, pos, path);
    ElemsWellFormed(j);
    RelabelledArray(r, j, tag);
    AtSplit(src, pos, head, ElemsText(j.elems, 0));
    SpliceElems(src, r, j.elems, 0, pos + |head|, path, tag);
    ElemsSplicedMeans(src, r, j.elems, 0, pos + |head|, path, tag);
    SpliceHead(src, found, tag, pos, head, pos + |Render(j)|, ElemsText(out, 0));
  }

  lemma SpliceObject(src: string, r: Rules, j: Json, pos: nat, path: seq<PathStep>, tag: string -> string)
    requires WellFormed(j) && At(src, pos, Render(j)) && j.Obj? && j.members != [] && JudgeObject(r, j.members).Plain?
    ensures Spliced(src, Outer(r, j, pos, path), tag, pos, pos + |Render(j)|, Render(Relabel(r, j, tag)))
    decreases j, 0
  {
    hide *;
    var head, out := "{" + j.members[0].pre, RelabelMembers(r, j.members, tag);
    var found := OuterMembers(r, j.members, 0, pos + |head|, path);
    OuterOfObject(r, j, pos, path, found);
    MembersWellFormed(j);
    RelabelledObject(r, j, tag);
    AtSplit(src, pos, head, MembersText(j.members, 0));
    SpliceMembers(src, r, j.members, 0, pos + |head|, path, tag);
    SpliceHead(src, found, tag, pos, head, pos + |Render(j)|, MembersText(out, 0));
  }

  lemma RelabelledArray(r: Rules, j: Json, tag: string -> string)
    requires j.Arr? && j.elems != []
    ensures var head, out := "[" + j.elems[0].pre, RelabelElems(r, j.elems, tag);
            Render(j) == head + ElemsText(j.elems, 0) && Render(Relabel(r, j, tag)) == head + ElemsText(out, 0)
  {
    hide ElemsText;
    var out := RelabelElems(r, j.elems, tag);
    assert Relabel(r, j, tag) == Arr(out, j.pad) && out[0].pre == j.elems[0].pre;
  }

  lemma ElemsSplicedMeans(src: string, r: Rules, elems: seq<Elem>, n: nat, pos: nat, path: seq<PathStep>,
                          tag: string -> string)
    requires n < |elems| && ElemsSpliced(src, r, elems, n, pos, path, tag)
    ensures Spliced(src, OuterElems(r, elems, n, pos, path), tag, pos, pos + |ElemsText(elems, n)|,
                    ElemsText(RelabelElems(r, elems, tag), n))
  {
  }

  lemma RelabelledObject(r: Rules, j: Json, tag: string -> string)
    requires j.Obj? && j.members != [] && JudgeObject(r, j.members).Plain?
    ensures var head, out := "{" + j.members[0].pre, RelabelMembers(r, j.members, tag);
            Render(j) == head + MembersText(j.members, 0) && Render(Relabel(r, j, tag)) == head + MembersText(out, 0)
  {
    hide MembersText;
    var out := RelabelMembers(r, j.members, tag);
    assert Relabel(r, j, tag) == Obj(out, j.pad) && out[0].pre == j.members[0].pre;
  }

  lemma AtSplit3(src: string, at: nat, v: string, post: string, rest: string)
    requires At(src, at, v + post + rest)
    ensures At(src, at, v) && At(src, at + |v|, post) && At(src, at + |v| + |post|, rest)
  {
    AtSplit(src, at, v + post, rest);
    AtSplit(src, at, v, post);
  }

  lemma RelabelledElem(r: Rules, elems: seq<Elem>, n: nat, tag: string -> string)
    requires n < |elems| && WellFormedElems(elems)
    ensures RelabelElems(r, elems, tag)[n] == elems[n].(value := Relabel(r, elems[n].value, tag)) &&
            WellFormed(elems[n].value)
  {
    hide Relabel;
  }

  lemma RelabelledMember(r: Rules, members: seq<Member>, n: nat, tag: string -> string)
    requires n < |members| && WellFormedMembers(members)
    ensures var m := RelabelMembers(r, members, tag)[n];
            m == members[n].(value := Relabel(r, members[n].value, tag)) && MemberHead(m) == MemberHead(members[n])
    ensures WellFormed(members[n].value)
  {
    hide Relabel;
  }

  ghost predicate ElemsSpliced(src: string, r: Rules, elems: seq<Elem>, n: nat, pos: nat, path: seq<PathStep>,
                               tag: string -> string)
    requires n < |elems|
  {
    Spliced(src, OuterElems(r, elems, n, pos, path), tag, pos, pos + |ElemsText(elems, n)|,
            ElemsText(RelabelElems(r, elems, tag), n))
  }

  lemma {:induction false} SpliceElems(src: string, r: Rules, elems: seq<Elem>, n: nat, pos: nat, path: seq<PathStep>,
                                       tag: string -> string)
    requires n < |elems| && WellFormedElems(elems) && At(src, pos, ElemsText(elems, n))
    ensures ElemsSpliced(src, r, elems, n, pos, path, tag)
    decreases elems, |elems| - n, 1
  {
    hide *;
    var e, out := elems[n], RelabelElems(r, elems, tag);
    ElemsTextIs(elems, n);
    var rest, to := ElemPieces(src, r, elems, n, pos, path, tag);
    UnfoldElems(r, elems, n, pos, path);
    RelabelledElem(r, elems, n, tag);
    ElemsTextIs(out, n);
    ElemsDone(src, r, elems, n, pos, path, tag, Outer(r, e.value, pos, r.Below(path, Index(n))) + rest, to);
  }

  /** An element's value, and what follows it. */
  lemma ElemPieces(src: string, r: Rules, elems: seq<Elem>, n: nat, pos: nat, path: seq<PathStep>,
                   tag: string -> string)
    returns (rest: seq<Found>, to: nat)
    requires n < |elems| && WellFormedElems(elems)
    requires At(src, pos, Render(elems[n].value) + elems[n].post + ElemsRest(elems, n))
    ensures var after := pos + |Render(elems[n].value)| + |elems[n].post|;
            && to == after + |ElemsRest(elems, n)|
            && rest == if n + 1 == |elems| then []
                       else OuterElems(r, elems, n + 1, after + 1 + |elems[n + 1].pre|, path)
    ensures Spliced(src, Outer(r, elems[n].value, pos, r.Below(path, Index(n))) + rest, tag, pos, to,
                    Render(Relabel(r, elems[n].value, tag)) + elems[n].post + ElemsRest(RelabelElems(r, elems, tag), n))
    decreases elems, |elems| - n, 0, 1
  {
    hide *;
    var e := elems[n];
    var v, t := Render(e.value), ElemsRest(elems, n);
    var below, after := r.Below(path, Index(n)), pos + |v| + |e.post|;
    RelabelledElem(r, elems, n, tag);
    AtSplit3(src, pos, v, e.post, t);
    SpliceIsRelabel(src, r, e.value, pos, below, tag);
    rest := RestElems(src, r, elems, n, after, path, tag);
    to := after + |t|;
    SplicePiece(src, Outer(r, e.value, pos, below), rest, tag, pos, pos + |v|, to,
                Render(Relabel(r, e.value, tag)), e.post, ElemsRest(RelabelElems(r, elems, tag), n));
  }

  lemma ElemsDone(src: string, r: Rules, elems: seq<Elem>, n: nat, pos: nat, path: seq<PathStep>,
                  tag: string -> string, found: seq<Found>, to: nat)
    requires n < |elems| && OuterElems(r, elems, n, pos, path) == found && to == pos + |ElemsText(elems, n)|
    requires Spliced(src, found, tag, pos, to, ElemsText(RelabelElems(r, elems, tag), n))
    ensures ElemsSpliced(src, r, elems, n, pos, path, tag)
  {
    hide Spliced, OuterElems, ElemsText, RelabelElems;
  }

  /** What follows an element. */
  lemma RestElems(src: string, r: Rules, elems: seq<Elem>, n: nat, after: nat, path: seq<PathStep>,
                  tag: string -> string)
    returns (rest: seq<Found>)
    requires n < |elems| && WellFormedElems(elems) && At(src, after, ElemsRest(elems, n))
    ensures rest == if n + 1 == |elems| then [] else OuterElems(r, elems, n + 1, after + 1 + |elems[n + 1].pre|, path)
    ensures Spliced(src, rest, tag, after, after + |ElemsRest(elems, n)|, ElemsRest(RelabelElems(r, elems, tag), n))
    decreases elems, |elems| - n, 0, 0
  {
    var out := RelabelElems(r, elems, tag);
    hide At, ElemsText, ElemsRest, Render, OuterElems, Spliced, RelabelElems, WellFormed, WellFormedElems;
    ElemsTextIs(elems, n);
    ElemsTextIs(out, n);
    if n + 1 == |elems| {
      rest := [];
      SpliceNothing(src, tag, after, "]");
    } else {
      RelabelledElem(r, elems, n + 1, tag);
      var sep := "," + elems[n + 1].pre;
      AtSplit(src, after, sep, ElemsText(elems, n + 1));
      SpliceElems(src, r, elems, n + 1, after + |sep|, path, tag);
      rest := OuterElems(r, elems, n + 1, after + |sep|, path);
      SpliceHead(src, rest, tag, after, sep, after + |ElemsRest(elems, n)|, ElemsText(out, n + 1));
    }
  }

  lemma {:induction false} SpliceMembers(src: string, r: Rules, members: seq<Member>, n: nat, pos: nat,
                                         path: seq<PathStep>, tag: string -> string)
    requires n < |members| && WellFormedMembers(members) && At(src, pos, MembersText(members, n))
    ensures Spliced(src, OuterMembers(r, members, n, pos, path), tag, pos, pos + |MembersText(members, n)|,
                    MembersText(RelabelMembers(r, members, tag), n))
    decreases members, |members| - n, 2
  {
    hide *;
    var out := RelabelMembers(r, members, tag);
    var head, body := MemberHead(members[n]), MemberBody(members, n);
    RelabelledMember(r, members, n, tag);
    MembersTextIs(members, n);
    MembersTextIs(out, n);
    AtSplit(src, pos, head, body);
    SpliceBody(src, r, members, n, pos, path, tag);
    SpliceHead(src, OuterMembers(r, members, n, pos, path), tag, pos, head, pos + |MembersText(members, n)|,
               MemberBody(out, n));
  }

  /** A member's value and what follows it. */
  lemma SpliceBody(src: string, r: Rules, members: seq<Member>, n: nat, pos: nat, path: seq<PathStep>,
                   tag: string -> string)
    requires n < |members| && WellFormedMembers(members) &&
             At(src, pos + |MemberHead(members[n])|, MemberBody(members, n))
    ensures var at := pos + |MemberHead(members[n])|;
            Spliced(src, OuterMembers(r, members, n, pos, path), tag, at, at + |MemberBody(members, n)|,
                    MemberBody(RelabelMembers(r, members, tag), n))
    decreases members, |members| - n, 1
  {
    hide *;
    var m, out := members[n], RelabelMembers(r, members, tag);
    var below, at := r.Below(path, Key(m.key)), pos + |MemberHead(m)|;
    var v, t := Render(m.value), MembersRest(members, n);
    RelabelledMember(r, members, n, tag);
    MemberBodyIs(members, n);
    MemberBodyIs(out, n);
    AtSplit3(src, at, v, m.post, t);
    UnfoldMembers(r, members, n, pos, path);
    SpliceIsRelabel(src, r, m.value, at, below, tag);
    var rest := RestMembers(src, r, members, n, at + |v| + |m.post|, path, tag);
    SplicePiece(src, Outer(r, m.value, at, below), rest, tag, at, at + |v|, at + |v| + |m.post| + |t|,
                Render(out[n].value), m.post, MembersRest(out, n));
  }

  /** What follows a member. */
  lemma RestMembers(src: string, r: Rules, members: seq<Member>, n: nat, after: nat, path: seq<PathStep>,
                    tag: string -> string)
    returns (rest: seq<Found>)
    requires n < |members| && WellFormedMembers(members) && At(src, after, MembersRest(members, n))
    ensures rest == if n + 1 == |members| then []
                    else OuterMembers(r, members, n + 1, after + 1 + |members[n + 1].pre|, path)
    ensures Spliced(src, rest, tag, after, after + |MembersRest(members, n)|,
                    MembersRest(RelabelMembers(r, members, tag), n))
    decreases members, |members| - n, 0
  {
    var out := RelabelMembers(r, members, tag);
    hide *;
    MembersTextIs(members, n);
    MembersTextIs(out, n);
    if n + 1 == |members| {
      rest := [];
      SpliceNothing(src, tag, after, "}");
    } else {
      RelabelledMember(r, members, n + 1, tag);
      var sep := "," + members[n + 1].pre;
      AtSplit(src, after, sep, MembersText(members, n + 1));
      SpliceMembers(src, r, members, n + 1, after + |sep|, path, tag);
      rest := OuterMembers(r, members, n + 1, after + |sep|, path);
      SpliceHead(src, rest, tag, after, sep, after + |MembersRest(members, n)|, MembersText(out, n + 1));
    }
  }

  // ----- Committing -----

  predicate InText(src: string, fs: seq<Found>) {
    forall k :: 0 <= k < |fs| ==> fs[k].start <= fs[k].end <= |src|
  }

  lemma {:induction false} InOrderIsInText(src: string, fs: seq<Found>, from: nat, to: nat)
    requires InOrder(src, fs, from, to)
    ensures InText(src, fs)
  {
    if fs != [] {
      InOrderIsInText(src, fs[1..], fs[0].end, to);
      assert forall k :: 1 <= k < |fs| ==> fs[k] == fs[1..][k - 1];
    }
  }

  /** What stands at a found object: a block, or the problem with it. */
  function Judged(be: Backend, src: string, f: Found): (r: (Block, Option<Problem>))
    requires f.start <= f.end <= |src|
  {
    if f.foreign.Some? then (Block("", ""), Some(ForeignMember(f.foreign.value)))
    else match be.decode(src[f.start..f.end])
         case None => (Block("", ""), Some(NotAnImage))
         case Some(b) => (b, None)
  }

  /** Images are admitted in document order up to the first that is refused. */
  function Commit(be: Backend, src: string, fs: seq<Found>, a: Album, place: Placement): (r: (Album, Option<Refusal>))
    requires InText(src, fs) && Indexed(be, a)
    ensures Indexed(be, r.0)
  {
    if fs == [] then (a, None)
    else
      var (b, problem) := Judged(be, src, fs[0]);
      if problem.Some? then (a, Some(Refusal(fs[0].path, problem.value)))
      else match Objection(be, a, b, place)
           case Some(p) => (a, Some(Refusal(fs[0].path, p)))
           case None => Commit(be, src, fs[1..], Admitted(be, a, b, place), place)
  }

  lemma GrowsTransitive(a: Album, b: Album, c: Album)
    requires Grows(a, b) && Grows(b, c)
    ensures Grows(a, c)
  {
  }

  lemma {:induction false} CommitGrows(be: Backend, src: string, fs: seq<Found>, a: Album, place: Placement)
    requires InText(src, fs) && Indexed(be, a)
    ensures Grows(a, Commit(be, src, fs, a, place).0)
  {
    hide Grows, Indexed, Objection, Admitted, Judged;
    if fs == [] {
      GrowsSelf(a);
    } else {
      var (b, problem) := Judged(be, src, fs[0]);
      if problem.None? && Objection(be, a, b, place).None? {
        var next := Admitted(be, a, b, place);
        CommitGrows(be, src, fs[1..], next, place);
        GrowsTransitive(a, next, Commit(be, src, fs[1..], next, place).0);
      } else {
        GrowsSelf(a);
      }
    }
  }

  lemma GrowsSelf(a: Album)
    ensures Grows(a, a)
  {
  }

  predicate MediaAgrees(be: Backend, a: Album, b: Block)
    requires Indexed(be, a)
  {
    var h := be.digest(b.data);
    h in a.index ==> a.images[a.index[h]].media == b.media
  }

  predicate Carried(be: Backend, b: Block, place: Placement) {
    place in be.places && (be.media == [] || b.media in be.media)
  }

  /** Every image is valid and carried, and no bytes come with two media types. */
  ghost predicate Acceptable(be: Backend, src: string, fs: seq<Found>, a: Album, place: Placement)
    requires InText(src, fs) && Indexed(be, a)
  {
    && (forall k :: 0 <= k < |fs| ==> Judged(be, src, fs[k]).1.None?)
    && (forall k :: 0 <= k < |fs| ==>
        Carried(be, Judged(be, src, fs[k]).0, place) && MediaAgrees(be, a, Judged(be, src, fs[k]).0))
    && (forall k, l :: 0 <= k < l < |fs| ==> SameMedia(be, Judged(be, src, fs[k]).0, Judged(be, src, fs[l]).0))
  }

  predicate SameMedia(be: Backend, b: Block, c: Block) {
    be.digest(b.data) == be.digest(c.data) ==> b.media == c.media
  }

  /** A part is accepted exactly when its images are acceptable. */
  lemma {:induction false} AcceptedIff(be: Backend, src: string, fs: seq<Found>, a: Album, place: Placement)
    requires InText(src, fs) && Indexed(be, a)
    ensures Commit(be, src, fs, a, place).1.None? <==> Acceptable(be, src, fs, a, place)
  {
    hide Indexed, Admitted, Judged, Acceptable, Grows, Objection;
    if fs == [] {
      AcceptableFirst(be, src, fs, a, place);
    } else {
      AcceptableFirst(be, src, fs, a, place);
      var (b, problem) := Judged(be, src, fs[0]);
      ObjectionIff(be, a, b, place);
      if problem.None? && Objection(be, a, b, place).None? {
        AcceptedIff(be, src, fs[1..], Admitted(be, a, b, place), place);
      }
    }
  }

  lemma ObjectionIff(be: Backend, a: Album, b: Block, place: Placement)
    requires Indexed(be, a)
    ensures Objection(be, a, b, place).None? <==> Carried(be, b, place) && MediaAgrees(be, a, b)
  {
  }

  lemma AcceptableFirst(be: Backend, src: string, fs: seq<Found>, a: Album, place: Placement)
    requires InText(src, fs) && Indexed(be, a)
    ensures fs == [] ==> Acceptable(be, src, fs, a, place)
    ensures fs != [] ==>
              (Acceptable(be, src, fs, a, place) <==>
                 var (b, problem) := Judged(be, src, fs[0]);
                 && problem.None? && Carried(be, b, place) && MediaAgrees(be, a, b)
                 && Acceptable(be, src, fs[1..], Admitted(be, a, b, place), place))
  {
    if fs != [] {
      hide Indexed, Judged, Admitted, Carried, Grows, MediaAgrees, SameMedia;
      var (b, problem) := Judged(be, src, fs[0]);
      var next := Admitted(be, a, b, place);
      if MediaAgrees(be, a, b) {
        forall k | 1 <= k < |fs|
          ensures MediaAgrees(be, next, Judged(be, src, fs[k]).0) <==>
                  MediaAgrees(be, a, Judged(be, src, fs[k]).0) && SameMedia(be, b, Judged(be, src, fs[k]).0)
        {
          AgreesAfter(be, a, b, place, Judged(be, src, fs[k]).0);
        }
      }
      Shifted(fs);
      if Acceptable(be, src, fs, a, place) {
        assert SameFirst(be, src, fs);
        assert Acceptable(be, src, fs[1..], next, place);
      }
      if problem.None? && Carried(be, b, place) && MediaAgrees(be, a, b) && Acceptable(be, src, fs[1..], next, place) {
        forall k | 0 <= k < |fs| ensures Judged(be, src, fs[k]).1.None? &&
            Carried(be, Judged(be, src, fs[k]).0, place) && MediaAgrees(be, a, Judged(be, src, fs[k]).0) {
          assert k > 0 ==> fs[k] == fs[1..][k - 1];
        }
        forall k, l | 0 <= k < l < |fs| ensures SameMedia(be, Judged(be, src, fs[k]).0, Judged(be, src, fs[l]).0) {
          assert fs[l] == fs[1..][l - 1];
          assert k > 0 ==> fs[k] == fs[1..][k - 1];
        }
      }
    }
  }

  ghost predicate SameFirst(be: Backend, src: string, fs: seq<Found>)
    requires InText(src, fs) && fs != []
  {
    forall l :: 1 <= l < |fs| ==> SameMedia(be, Judged(be, src, fs[0]).0, Judged(be, src, fs[l]).0)
  }

  lemma Shifted(fs: seq<Found>)
    requires fs != []
    ensures forall k :: 0 <= k < |fs| - 1 ==> fs[1..][k] == fs[k + 1]
  {
  }

  lemma AgreesAfter(be: Backend, a: Album, b: Block, place: Placement, c: Block)
    requires Indexed(be, a) && MediaAgrees(be, a, b)
    ensures MediaAgrees(be, Admitted(be, a, b, place), c) <==> MediaAgrees(be, a, c) && SameMedia(be, b, c)
  {
  }
}
