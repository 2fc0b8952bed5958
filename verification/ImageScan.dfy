/** The one-pass image scanner (decide/image.go:87-103, 296-492): a byte walker that logs an event per image
    object and rolls back the events of members when their container turns out to be one itself. */
module ImageScan {

  import opened Decimal
  import opened JsonText

  /** What encoding/json decides: which Block member a key names (-1 for none), and whether a string token
      spells the image kind. Strict mode keeps paths and logs foreign images; collect mode does neither. */
  datatype Rules = Rules(strict: bool, field: string -> int, kindField: int, dataField: int, isImage: string -> bool) {
    function Below(path: seq<PathStep>, step: PathStep): seq<PathStep> {
      if strict then path + [step] else path
    }
  }

  // ----- What an image object is -----

  /** What one pass over an object's members learns. */
  datatype Facts = Facts(named: bool, foreign: Option<string>, kind: Option<string>, strKind: Option<string>,
                         data: Option<string>)

  const NO_FACTS := Facts(true, None, None, None, None)

  function AddFact(r: Rules, f: Facts, key: string, value: string): Facts {
    var n := r.field(key);
    if !f.named && !r.strict then f
    else if n == -1 then f.(named := false, foreign := if f.foreign.None? then Some(key) else f.foreign)
    else if n == r.kindField then
      f.(kind := Some(value), strKind := if value != "" && value[0] == '"' then Some(value) else f.strKind)
    else if n == r.dataField then f.(data := Some(value))
    else f
  }

  function MemberFacts(r: Rules, members: seq<Member>, n: nat): Facts
    requires n <= |members|
  {
    if n == 0 then NO_FACTS
    else AddFact(r, MemberFacts(r, members, n - 1), members[n - 1].key, Render(members[n - 1].value))
  }

  datatype Verdict = Plain | Image | ForeignImage(key: string)

  predicate IsForeignImage(r: Rules, f: Facts) {
    && f.foreign.Some? && f.data.Some? && f.data.value != "null" && f.data.value != "\"\""
    && f.kind.Some? && f.kind.value != "" && f.kind.value[0] == '"' && r.isImage(f.kind.value)
  }

  function Judge(r: Rules, f: Facts): Verdict {
    if f.named && f.strKind.Some? && r.isImage(f.strKind.value) then Image
    else if !f.named && r.strict && IsForeignImage(r, f) then ForeignImage(f.foreign.value)
    else Plain
  }

  function JudgeObject(r: Rules, members: seq<Member>): Verdict {
    Judge(r, MemberFacts(r, members, |members|))
  }

  /** The last of the first n members that p picks, by its text. */
  ghost predicate Latest(o: Option<string>, members: seq<Member>, n: nat, p: Member -> bool)
    requires n <= |members|
  {
    match o
    case None => forall k :: 0 <= k < n ==> !p(members[k])
    case Some(v) => exists k :: 0 <= k < n && IsLast(members, n, k, p) && Render(members[k].value) == v
  }

  predicate IsLast(members: seq<Member>, n: nat, k: nat, p: Member -> bool)
    requires k < n <= |members|
  {
    p(members[k]) && forall l :: k < l < n ==> !p(members[l])
  }

  lemma LatestNext(o: Option<string>, members: seq<Member>, n: nat, p: Member -> bool)
    requires n < |members| && Latest(o, members, n, p)
    ensures Latest(if p(members[n]) then Some(Render(members[n].value)) else o, members, n + 1, p)
  {
    hide Render;
    if p(members[n]) {
      assert IsLast(members, n + 1, n, p);
    } else if o.Some? {
      var k :| 0 <= k < n && IsLast(members, n, k, p) && Render(members[k].value) == o.value;
      assert IsLast(members, n + 1, k, p);
    }
  }

  function OfField(r: Rules, field: int): Member -> bool {
    (m: Member) => r.field(m.key) == field
  }

  function StringOfField(r: Rules, field: int): Member -> bool {
    (m: Member) => r.field(m.key) == field && m.value.Str?
  }

  predicate FieldsDiffer(r: Rules) {
    r.kindField != -1 && r.dataField != -1 && r.kindField != r.dataField
  }

  predicate AllNamed(r: Rules, members: seq<Member>, n: nat)
    requires n <= |members|
  {
    forall k :: 0 <= k < n ==> r.field(members[k].key) != -1
  }

  ghost predicate FactsMean(r: Rules, f: Facts, members: seq<Member>, n: nat)
    requires n <= |members|
  {
    && f.named == AllNamed(r, members, n)
    && (f.named || r.strict ==>
          && Latest(f.kind, members, n, OfField(r, r.kindField))
          && Latest(f.strKind, members, n, StringOfField(r, r.kindField))
          && Latest(f.data, members, n, OfField(r, r.dataField)))
  }

  /** What the member loop learns: the last kind, the last string kind, the last data, and whether all names are
      known. */
  lemma {:induction false} FactsAreLatest(r: Rules, members: seq<Member>, n: nat)
    requires n <= |members| && FieldsDiffer(r) && WellFormedMembers(members)
    ensures FactsMean(r, MemberFacts(r, members, n), members, n)
  {
    hide Render, WellFormed, Latest;
    if n == 0 {
      NoneYet(members, OfField(r, r.kindField));
      NoneYet(members, StringOfField(r, r.kindField));
      NoneYet(members, OfField(r, r.dataField));
    } else {
      FactsAreLatest(r, members, n - 1);
      var f, m := MemberFacts(r, members, n - 1), members[n - 1];
      QuoteIsString(m.value);
      if f.named || r.strict {
        LatestNext(f.kind, members, n - 1, OfField(r, r.kindField));
        LatestNext(f.strKind, members, n - 1, StringOfField(r, r.kindField));
        LatestNext(f.data, members, n - 1, OfField(r, r.dataField));
      }
    }
  }

  lemma NoneYet(members: seq<Member>, p: Member -> bool)
    ensures Latest(None, members, 0, p)
  {
  }

  lemma QuoteIsString(j: Json)
    requires WellFormed(j)
    ensures Render(j) != "" && (Render(j)[0] == '"' <==> j.Str?)
  {
  }

  /** The last member p picks has a text t picks. */
  ghost predicate LastIs(members: seq<Member>, p: Member -> bool, t: string -> bool) {
    exists k :: 0 <= k < |members| && IsLast(members, |members|, k, p) && t(Render(members[k].value))
  }

  lemma LatestIsLast(o: Option<string>, members: seq<Member>, p: Member -> bool, t: string -> bool)
    requires Latest(o, members, |members|, p)
    ensures LastIs(members, p, t) <==> o.Some? && t(o.value)
  {
    hide Render;
    if o.Some? {
      var k :| 0 <= k < |members| && IsLast(members, |members|, k, p) && Render(members[k].value) == o.value;
      forall l | 0 <= l < |members| && IsLast(members, |members|, l, p) ensures l == k {
        assert !(l < k) && !(k < l);
      }
    }
  }

  /** An object is an image exactly when every name is a Block's and its last string-valued kind says image. */
  lemma ImageMeans(r: Rules, members: seq<Member>)
    requires FieldsDiffer(r) && WellFormedMembers(members)
    ensures JudgeObject(r, members) == Image <==>
            AllNamed(r, members, |members|) && LastIs(members, StringOfField(r, r.kindField), r.isImage)
  {
    hide MemberFacts, Latest, LastIs;
    FactsAreLatest(r, members, |members|);
    var f := MemberFacts(r, members, |members|);
    if f.named {
      LatestIsLast(f.strKind, members, StringOfField(r, r.kindField), r.isImage);
    }
  }

  /** A foreign image has a name no Block has, its last kind is a string that says image, and its last data is there. */
  lemma ForeignImageMeans(r: Rules, members: seq<Member>)
    requires FieldsDiffer(r) && WellFormedMembers(members)
    ensures JudgeObject(r, members).ForeignImage? <==>
            && r.strict && !AllNamed(r, members, |members|)
            && LastIs(members, OfField(r, r.kindField), t => t != "" && t[0] == '"' && r.isImage(t))
            && LastIs(members, OfField(r, r.dataField), t => t != "null" && t != "\"\"")
  {
    hide MemberFacts, Latest, LastIs;
    FactsAreLatest(r, members, |members|);
    ForeignIsFirst(r, members, |members|);
    var f := MemberFacts(r, members, |members|);
    if r.strict {
      LatestIsLast(f.kind, members, OfField(r, r.kindField), t => t != "" && t[0] == '"' && r.isImage(t));
      LatestIsLast(f.data, members, OfField(r, r.dataField), t => t != "null" && t != "\"\"");
    }
  }

  /** The name reported is the first that no Block has. */
  lemma {:induction false} ForeignIsFirst(r: Rules, members: seq<Member>, n: nat)
    requires n <= |members|
    ensures var f := MemberFacts(r, members, n).foreign;
            && (f.None? <==> AllNamed(r, members, n)) && (f.None? <==> MemberFacts(r, members, n).named)
            && (f.Some? ==>
                exists k :: 0 <= k < n && r.field(members[k].key) == -1 && members[k].key == f.value &&
                  AllNamed(r, members, k))
  {
    hide Render;
    if n > 0 {
      ForeignIsFirst(r, members, n - 1);
      assert AllNamed(r, members, n) <==> AllNamed(r, members, n - 1) && r.field(members[n - 1].key) != -1;
    }
  }

  // ----- The outermost image objects of a tree, top down -----

  datatype PathStep = Key(tok: string) | Index(i: nat)

  /** An image object: where it stands, its path, and its first foreign member if it has one. */
  datatype Found = Found(start: nat, end: nat, path: seq<PathStep>, foreign: Option<string>)

  function Outer(r: Rules, j: Json, pos: nat, path: seq<PathStep>): seq<Found>
    decreases j
  {
    match j
    case Scalar(_) => []
    case Str(_) => []
    case Arr(elems, _) => if elems == [] then [] else OuterElems(r, elems, 0, pos + 1 + |elems[0].pre|, path)
    case Obj(members, _) =>
      if members == [] then []
      else
        match JudgeObject(r, members)
        case Plain => OuterMembers(r, members, 0, pos + 1 + |members[0].pre|, path)
        case Image => [Found(pos, pos + |Render(j)|, path, None)]
        case ForeignImage(key) => [Found(pos, pos + |Render(j)|, path, Some(key))]
  }

  /** From the n-th element on, whose value stands at pos. */
  function OuterElems(r: Rules, elems: seq<Elem>, n: nat, pos: nat, path: seq<PathStep>): seq<Found>
    requires n < |elems|
    decreases elems, |elems| - n
  {
    Outer(r, elems[n].value, pos, r.Below(path, Index(n))) +
    if n + 1 == |elems| then []
    else OuterElems(r, elems, n + 1, pos + |Render(elems[n].value)| + |elems[n].post| + 1 + |elems[n + 1].pre|, path)
  }

  /** From the n-th member on, whose key stands at pos. */
  function OuterMembers(r: Rules, members: seq<Member>, n: nat, pos: nat, path: seq<PathStep>): seq<Found>
    requires n < |members|
    decreases members, |members| - n
  {
    var m := members[n];
    var at := pos + |MemberHead(m)|;
    Outer(r, m.value, at, r.Below(path, Key(m.key))) +
    if n + 1 == |members| then []
    else OuterMembers(r, members, n + 1, at + |Render(m.value)| + |m.post| + 1 + |members[n + 1].pre|, path)
  }

  // ----- The walker's log -----

  datatype PathNode = PathNode(parent: int, step: PathStep)

  datatype Event = Event(start: nat, end: nat, node: int, foreign: Option<string>)

  /** Every node's parent stands before it. */
  predicate Linked(nodes: seq<PathNode>) {
    forall n :: 0 <= n < |nodes| ==> -1 <= nodes[n].parent < n
  }

  function PathOf(nodes: seq<PathNode>, n: int): seq<PathStep>
    requires Linked(nodes) && -1 <= n < |nodes|
    decreases n + 1
  {
    if n < 0 then [] else PathOf(nodes, nodes[n].parent) + [nodes[n].step]
  }

  lemma {:induction false} PathStable(nodes: seq<PathNode>, more: seq<PathNode>, n: int)
    requires Linked(nodes) && Linked(more) && nodes <= more && -1 <= n < |nodes|
    ensures PathOf(nodes, n) == PathOf(more, n)
    decreases n + 1
  {
    if n >= 0 {
      PathStable(nodes, more, nodes[n].parent);
    }
  }

  predicate EventsIn(nodes: seq<PathNode>, events: seq<Event>) {
    forall i :: 0 <= i < |events| ==> -1 <= events[i].node < |nodes|
  }

  /** The logged events with their paths read off the nodes. */
  function Resolve(nodes: seq<PathNode>, events: seq<Event>): (fs: seq<Found>)
    requires Linked(nodes) && EventsIn(nodes, events)
    ensures |fs| == |events|
    ensures forall i :: 0 <= i < |fs| ==>
              fs[i] == Found(events[i].start, events[i].end, PathOf(nodes, events[i].node), events[i].foreign)
  {
    seq(|events|, i requires 0 <= i < |events| =>
      Found(events[i].start, events[i].end, PathOf(nodes, events[i].node), events[i].foreign))
  }

  lemma ResolveStable(nodes: seq<PathNode>, more: seq<PathNode>, events: seq<Event>)
    requires Linked(nodes) && Linked(more) && nodes <= more && EventsIn(nodes, events)
    ensures EventsIn(more, events) && Resolve(nodes, events) == Resolve(more, events)
  {
    hide PathOf;
    forall i | 0 <= i < |events| ensures PathOf(nodes, events[i].node) == PathOf(more, events[i].node) {
      PathStable(nodes, more, events[i].node);
    }
  }

  /** From (nodes0, events0) to (nodes, events) the walker logged exactly `found`. */
  ghost predicate Logged(nodes0: seq<PathNode>, events0: seq<Event>, nodes: seq<PathNode>, events: seq<Event>,
                         found: seq<Found>) {
    && Linked(nodes0) && Linked(nodes) && nodes0 <= nodes
    && EventsIn(nodes0, events0) && EventsIn(nodes, events) && events0 <= events
    && Resolve(nodes, events[|events0|..]) == found
  }

  lemma LoggedNothing(nodes: seq<PathNode>, events: seq<Event>)
    requires Linked(nodes) && EventsIn(nodes, events)
    ensures Logged(nodes, events, nodes, events, [])
  {
  }

  lemma LoggedThen(n0: seq<PathNode>, e0: seq<Event>, n1: seq<PathNode>, e1: seq<Event>, n2: seq<PathNode>,
                   e2: seq<Event>,
                   a: seq<Found>, b: seq<Found>)
    requires Logged(n0, e0, n1, e1, a) && Logged(n1, e1, n2, e2, b)
    ensures Logged(n0, e0, n2, e2, a + b)
  {
    hide PathOf;
    assert EventsIn(n1, e1[|e0|..]);
    ResolveStable(n1, n2, e1[|e0|..]);
    assert e2[|e0|..] == e1[|e0|..] + e2[|e1|..];
  }

  /** Rolling a container's members back and logging the container itself. */
  lemma LoggedSelf(nodes: seq<PathNode>, events: seq<Event>, e: Event)
    requires Linked(nodes) && EventsIn(nodes, events) && -1 <= e.node < |nodes|
    ensures Logged(nodes, events, nodes, events + [e], [Found(e.start, e.end, PathOf(nodes, e.node), e.foreign)])
  {
    hide PathOf;
    assert (events + [e])[|events|..] == [e];
  }

  /** A step pushes its node, scans, and pops it again when nothing below was logged. */
  lemma LoggedBelow(nodes: seq<PathNode>, node: PathNode, events: seq<Event>, after: seq<PathNode>, log: seq<Event>,
                    found: seq<Found>)
    requires Linked(nodes) && EventsIn(nodes, events) && -1 <= node.parent < |nodes|
    requires Logged(nodes + [node], events, after, log, found)
    ensures Logged(nodes, events, if |log| == |events| then nodes else after, log, found)
  {
    hide PathOf;
    if |log| == |events| {
      assert log == events && found == [];
    }
  }

  // ----- Where values stand -----

  lemma ElementAt(src: string, i: nat, elems: seq<Elem>, n: nat)
    requires n < |elems| && At(src, i, ElemsText(elems, n))
    requires AllWs(elems[n].post)
    ensures var v := Render(elems[n].value); var p := elems[n].post;
            && At(src, i, v) && Delimited(src, i + |v|)
            && At(src, i + |v|, p) && At(src, i + |v| + |p|, ElemsRest(elems, n))
            && SkipWs(src, i + |v|) == i + |v| + |p|
            && i + |v| + |p| < |src| && src[i + |v| + |p|] == (if n + 1 == |elems| then ']' else ',')
  {
    var v, p, t := Render(elems[n].value), elems[n].post, ElemsRest(elems, n);
    var c := if n + 1 == |elems| then ']' else ',';
    assert ElemsText(elems, n) == v + p + t;
    assert t[0] == c;
    hide ElemsText, ElemsRest, Render;
    AfterValue(src, i, v, p, t, c);
  }

  lemma AfterValue(src: string, i: nat, v: string, p: string, t: string, c: char)
    requires At(src, i, v + p + t) && AllWs(p) && t != "" && t[0] == c && IsDelimiter(c) && !IsWs(c)
    ensures At(src, i, v) && Delimited(src, i + |v|) && At(src, i + |v|, p) && At(src, i + |v| + |p|, t)
    ensures SkipWs(src, i + |v|) == i + |v| + |p|
    ensures i + |v| + |p| < |src| && src[i + |v| + |p|] == c
  {
    AtSplit(src, i, v + p, t);
    AtSplit(src, i, v, p);
    AtFirst(src, i + |v| + |p|, t);
    SkipsWs(src, i + |v|, p);
    if p != "" {
      AtFirst(src, i + |v|, p);
    }
  }

  /** After a comma comes the next element. */
  lemma NextElementAt(src: string, i: nat, elems: seq<Elem>, n: nat)
    requires n + 1 < |elems| && At(src, i, ElemsRest(elems, n)) && AllWs(elems[n + 1].pre) &&
             WellFormed(elems[n + 1].value)
    ensures i + 1 <= |src|
    ensures var k := i + 1 + |elems[n + 1].pre|;
            SkipWs(src, i + 1) == k && At(src, k, ElemsText(elems, n + 1)) && k < |src|
  {
    var pre, rest := elems[n + 1].pre, ElemsText(elems, n + 1);
    assert ElemsRest(elems, n) == "," + pre + rest;
    FirstOfElems(elems, n + 1);
    hide ElemsText, ElemsRest, WellFormed;
    AfterMark(src, i, ",", pre, rest);
  }

  lemma FirstIsNotWs(j: Json)
    requires WellFormed(j)
    ensures Render(j) != "" && !IsWs(Render(j)[0])
  {
  }

  lemma FirstOfElems(elems: seq<Elem>, n: nat)
    requires n < |elems| && WellFormed(elems[n].value)
    ensures ElemsText(elems, n) != "" && !IsWs(ElemsText(elems, n)[0])
  {
    FirstIsNotWs(elems[n].value);
    hide Render, WellFormed;
  }

  /** A one-character mark, white space, and something that is not white space. */
  lemma AfterMark(src: string, i: nat, mark: string, ws: string, rest: string)
    requires |mark| == 1 && At(src, i, mark + ws + rest) && AllWs(ws) && rest != "" && !IsWs(rest[0])
    ensures i + 1 <= |src| && SkipWs(src, i + 1) == i + 1 + |ws| && At(src, i + 1 + |ws|, rest) && i + 1 + |ws| < |src|
    ensures src[i] == mark[0]
  {
    AtSplit(src, i, mark + ws, rest);
    AtSplit(src, i, mark, ws);
    AtFirst(src, i, mark);
    AtFirst(src, i + 1 + |ws|, rest);
    SkipsWs(src, i + 1, ws);
  }

  lemma ElemsTextIs(elems: seq<Elem>, n: nat)
    requires n < |elems|
    ensures ElemsText(elems, n) == Render(elems[n].value) + elems[n].post + ElemsRest(elems, n)
    ensures ElemsRest(elems, n) == if n + 1 == |elems| then "]" else "," + elems[n + 1].pre + ElemsText(elems, n + 1)
  {
    hide Render;
  }

  lemma MembersTextIs(members: seq<Member>, n: nat)
    requires n < |members|
    ensures MembersText(members, n) == MemberHead(members[n]) + MemberBody(members, n)
    ensures MembersRest(members, n) ==
            if n + 1 == |members| then "}" else "," + members[n + 1].pre + MembersText(members, n + 1)
  {
    hide Render, MemberHead;
  }

  /** A member from its value on. */
  function MemberBody(members: seq<Member>, n: nat): string
    requires n < |members|
  {
    Render(members[n].value) + members[n].post + MembersRest(members, n)
  }

  lemma MemberBodyIs(members: seq<Member>, n: nat)
    requires n < |members|
    ensures MemberBody(members, n) == Render(members[n].value) + members[n].post + MembersRest(members, n)
  {
  }

  /** A member's key, colon and value, and what follows the value. */
  lemma MemberAt(src: string, i: nat, members: seq<Member>, n: nat)
    requires n < |members| && At(src, i, MembersText(members, n))
    requires AllWs(members[n].gap) && AllWs(members[n].colon) && AllWs(members[n].post)
    requires StringToken(members[n].key) && WellFormed(members[n].value)
    ensures var m := members[n];
            var ke := i + |m.key|; var vs := i + |MemberHead(m)|;
            && i < |src| && SkipValue(src, i) == ke && src[i..ke] == m.key
            && SkipWs(src, ke) + 1 <= |src| && SkipWs(src, SkipWs(src, ke) + 1) == vs
            && At(src, vs, MemberBody(members, n))
  {
    hide *;
    MembersTextIs(members, n);
    BodyIsNotWs(members, n);
    KeyAt(src, i, members[n], MemberBody(members, n));
  }

  lemma BodyIsNotWs(members: seq<Member>, n: nat)
    requires n < |members| && WellFormed(members[n].value)
    ensures MemberBody(members, n) != "" && !IsWs(MemberBody(members, n)[0])
  {
    FirstIsNotWs(members[n].value);
    hide Render, MembersRest;
  }

  lemma KeyAt(src: string, i: nat, m: Member, rest: string)
    requires At(src, i, MemberHead(m) + rest) && rest != "" && !IsWs(rest[0])
    requires AllWs(m.gap) && AllWs(m.colon) && StringToken(m.key)
    ensures var ke := i + |m.key|; var vs := i + |MemberHead(m)|;
            && i < |src| && SkipValue(src, i) == ke && src[i..ke] == m.key
            && SkipWs(src, ke) + 1 <= |src| && SkipWs(src, SkipWs(src, ke) + 1) == vs
            && At(src, vs, rest)
  {
    hide *;
    HeadSplit(m, rest);
    TokenAt(src, i, m.key, m.gap + (":" + m.colon + rest));
    ColonAt(src, i + |m.key|, m.gap, m.colon, rest);
  }

  lemma HeadSplit(m: Member, rest: string)
    ensures MemberHead(m) + rest == m.key + (m.gap + (":" + m.colon + rest))
    ensures |MemberHead(m)| == |m.key| + |m.gap| + 1 + |m.colon|
  {
  }

  lemma TokenAt(src: string, i: nat, key: string, after: string)
    requires At(src, i, key + after) && StringToken(key)
    ensures i < |src| && SkipValue(src, i) == i + |key| <= |src| && src[i..i + |key|] == key &&
            At(src, i + |key|, after)
  {
    hide StringToken, SkipValue;
    AtSplit(src, i, key, after);
    SkipsString(src, i, key);
  }

  lemma ColonAt(src: string, i: nat, gap: string, colon: string, rest: string)
    requires At(src, i, gap + (":" + colon + rest)) && AllWs(gap) && AllWs(colon) && rest != "" && !IsWs(rest[0])
    ensures i + |gap| < |src| && SkipWs(src, i) == i + |gap|
    ensures SkipWs(src, i + |gap| + 1) == i + |gap| + 1 + |colon| && At(src, i + |gap| + 1 + |colon|, rest)
  {
    var tail := ":" + colon + rest;
    AtSplit(src, i, gap, tail);
    hide SkipWs;
    AtFirst(src, i + |gap|, tail);
    SkipsWs(src, i, gap);
    AfterMark(src, i + |gap|, ":", colon, rest);
  }

  lemma MemberValueAt(src: string, i: nat, members: seq<Member>, n: nat)
    requires n < |members| && At(src, i, MemberBody(members, n))
    requires AllWs(members[n].post)
    ensures var v := Render(members[n].value); var p := members[n].post;
            && At(src, i, v) && Delimited(src, i + |v|)
            && At(src, i + |v| + |p|, MembersRest(members, n))
            && SkipWs(src, i + |v|) == i + |v| + |p|
            && i + |v| + |p| < |src| && src[i + |v| + |p|] == (if n + 1 == |members| then '}' else ',')
  {
    var v, p, t := Render(members[n].value), members[n].post, MembersRest(members, n);
    var c := if n + 1 == |members| then '}' else ',';
    assert t[0] == c;
    hide MembersRest, Render;
    AfterValue(src, i, v, p, t, c);
  }

  lemma NextMemberAt(src: string, i: nat, members: seq<Member>, n: nat)
    requires n + 1 < |members| && At(src, i, MembersRest(members, n))
    requires AllWs(members[n + 1].pre) && StringToken(members[n + 1].key)
    ensures i + 1 <= |src|
    ensures var k := i + 1 + |members[n + 1].pre|;
            SkipWs(src, i + 1) == k && At(src, k, MembersText(members, n + 1)) && k < |src|
  {
    var pre, rest := members[n + 1].pre, MembersText(members, n + 1);
    assert MembersRest(members, n) == "," + pre + rest;
    assert rest[0] == members[n + 1].key[0] == '"';
    hide MembersText, MembersRest;
    AfterMark(src, i, ",", pre, rest);
  }

  /** Inside an opening bracket or brace: the first element or member, or the closing mark. */
  lemma OpeningAt(src: string, i: nat, j: Json)
    requires (j.Arr? || j.Obj?) && WellFormed(j) && At(src, i, Render(j))
    ensures i + 1 <= |src| && src[i] == (if j.Arr? then '[' else '{')
    ensures j.Arr? && j.elems == [] ==> var k := SkipWs(src, i + 1);
            k < |src| && src[k] == ']' && k + 1 == i + |Render(j)|
    ensures j.Obj? && j.members == [] ==> var k := SkipWs(src, i + 1);
            k < |src| && src[k] == '}' && k + 1 == i + |Render(j)|
    ensures j.Arr? && j.elems != [] ==>
              var k := SkipWs(src, i + 1);
                k == i + 1 + |j.elems[0].pre| && k < |src| && At(src, k, ElemsText(j.elems, 0)) && src[k] != ']'
    ensures j.Obj? && j.members != [] ==>
              var k := SkipWs(src, i + 1);
                k == i + 1 + |j.members[0].pre| && k < |src| && At(src, k, MembersText(j.members, 0)) && src[k] != '}'
  {
    var mark := if j.Arr? then "[" else "{";
    if j.Arr? {
      if j.elems == [] {
        EmptyAt(src, i, j, mark, "]");
      } else {
        FirstElementAt(src, i, j);
      }
    } else if j.members == [] {
      EmptyAt(src, i, j, mark, "}");
    } else {
      FirstMemberAt(src, i, j);
    }
  }

  lemma EmptyAt(src: string, i: nat, j: Json, mark: string, close: string)
    requires (j.Arr? || j.Obj?) && |mark| == |close| == 1 && !IsWs(close[0]) && AllWs(j.pad)
    requires Render(j) == mark + j.pad + close && At(src, i, Render(j))
    ensures i + 1 <= |src| && src[i] == mark[0]
    ensures var k := SkipWs(src, i + 1); k < |src| && src[k] == close[0] && k + 1 == i + |Render(j)|
  {
    hide Render;
    AfterMark(src, i, mark, j.pad, close);
    AtFirst(src, i + 1 + |j.pad|, close);
  }

  lemma FirstElementAt(src: string, i: nat, j: Json)
    requires j.Arr? && j.elems != [] && WellFormed(j) && At(src, i, Render(j))
    ensures i + 1 <= |src| && src[i] == '['
    ensures var k := SkipWs(src, i + 1);
            k == i + 1 + |j.elems[0].pre| && k < |src| && At(src, k, ElemsText(j.elems, 0)) && src[k] != ']'
  {
    FirstOfElems(j.elems, 0);
    FirstIsNoClose(j.elems[0].value);
    assert Render(j) == "[" + j.elems[0].pre + ElemsText(j.elems, 0);
    assert ElemsText(j.elems, 0)[0] == Render(j.elems[0].value)[0];
    hide ElemsText, Render, WellFormed;
    AfterMark(src, i, "[", j.elems[0].pre, ElemsText(j.elems, 0));
    AtFirst(src, i + 1 + |j.elems[0].pre|, ElemsText(j.elems, 0));
  }

  lemma FirstIsNoClose(j: Json)
    requires WellFormed(j)
    ensures Render(j) != "" && !IsDelimiter(Render(j)[0])
  {
  }

  lemma FirstMemberAt(src: string, i: nat, j: Json)
    requires j.Obj? && j.members != [] && WellFormed(j) && At(src, i, Render(j))
    ensures i + 1 <= |src| && src[i] == '{'
    ensures var k := SkipWs(src, i + 1);
            k == i + 1 + |j.members[0].pre| && k < |src| && At(src, k, MembersText(j.members, 0)) && src[k] != '}'
  {
    var m := j.members[0];
    assert AllWs(m.pre) && StringToken(m.key);
    assert Render(j) == "{" + m.pre + MembersText(j.members, 0);
    assert MembersText(j.members, 0)[0] == m.key[0] == '"';
    hide MembersText, Render, WellFormed;
    AfterMark(src, i, "{", m.pre, MembersText(j.members, 0));
    AtFirst(src, i + 1 + |m.pre|, MembersText(j.members, 0));
  }

  lemma KindAt(src: string, i: nat, j: Json)
    requires WellFormed(j) && At(src, i, Render(j))
    ensures i < |src| && (src[i] == '{' <==> j.Obj?) && (src[i] == '[' <==> j.Arr?)
  {
    KindOfFirst(j);
    hide Render, WellFormed;
    AtFirst(src, i, Render(j));
  }

  lemma KindOfFirst(j: Json)
    requires WellFormed(j)
    ensures Render(j) != "" && (Render(j)[0] == '{' <==> j.Obj?) && (Render(j)[0] == '[' <==> j.Arr?)
  {
  }

  // ----- The walker -----

  /** The switch of the member loop. */
  method LearnMember(rules: Rules, facts: Facts, key: string, value: string) returns (learnt: Facts)
    requires value != ""
    ensures learnt == AddFact(rules, facts, key, value)
  {
    learnt := facts;
    if !facts.named && !rules.strict {
      return;
    }
    var f := rules.field(key);
    if f == -1 {
      learnt := learnt.(named := false);
      if facts.foreign == None {
        learnt := learnt.(foreign := Some(key));
      }
    } else if f == rules.kindField {
      learnt := learnt.(kind := Some(value));
      if value[0] == '"' {
        learnt := learnt.(strKind := Some(value));
      }
    } else if f == rules.dataField {
      learnt := learnt.(data := Some(value));
    }
  }

  class Walker {
    const src: string
    const rules: Rules
    var nodes: seq<PathNode>
    var cur: int
    var events: seq<Event>

    constructor (src: string, rules: Rules)
      ensures this.src == src && this.rules == rules
      ensures Valid() && nodes == [] && cur == -1 && events == []
    {
      this.src := src;
      this.rules := rules;
      nodes := [];
      cur := -1;
      events := [];
    }

    ghost predicate Valid()
      reads this
    {
      Linked(nodes) && EventsIn(nodes, events) && -1 <= cur < |nodes|
    }

    /** Scanning a value logs its outermost images, and nothing else. */
    method Value(i: nat, ghost j: Json, ghost path: seq<PathStep>) returns (end: nat)
      requires Valid() && PathOf(nodes, cur) == path
      requires WellFormed(j) && At(src, i, Render(j)) && Delimited(src, i + |Render(j)|)
      modifies this`nodes, this`cur, this`events
      ensures Valid() && cur == old(cur) && end == i + |Render(j)|
      ensures Logged(old(nodes), old(events), nodes, events, Outer(rules, j, i, path))
      decreases j, 3
    {
      KindAt(src, i, j);
      hide Render, WellFormed, PathOf, Linked, EventsIn, Logged, At, Delimited;
      if src[i] == '{' {
        end := Object(i, j, path);
      } else if src[i] == '[' {
        end := Array(i, j, path);
      } else {
        end := FindValueEnd(src, i);
        SkipsValue(src, i, j);
        LoggedNothing(nodes, events);
      }
    }

    /** A child keeps its path node exactly when something below it was logged. */
    method Step(step: PathStep, vs: nat, ghost j: Json, ghost path: seq<PathStep>) returns (end: nat)
      requires Valid() && PathOf(nodes, cur) == path
      requires WellFormed(j) && At(src, vs, Render(j)) && Delimited(src, vs + |Render(j)|)
      modifies this`nodes, this`cur, this`events
      ensures Valid() && cur == old(cur) && end == vs + |Render(j)|
      ensures Logged(old(nodes), old(events), nodes, events, Outer(rules, j, vs, rules.Below(path, step)))
      decreases j, 4
    {
      KindAt(src, vs, j);
      hide Render, WellFormed, At, Delimited, Logged, Outer;
      if !rules.strict {
        end := Value(vs, j, path);
        return;
      }
      if src[vs] != '{' && src[vs] != '[' {
        OuterOfLeaf(rules, j, vs, path);
        OuterOfLeaf(rules, j, vs, rules.Below(path, step));
        end := Value(vs, j, path);
        return;
      }
      var parent, count, size := cur, |events|, |nodes|;
      var node := PathNode(parent, step);
      PathStable(nodes, nodes + [node], parent);
      assert (nodes + [node])[..size] == nodes;
      nodes := nodes + [node];
      cur := size;
      end := Value(vs, j, path + [step]);
      LoggedBelow(old(nodes), node, old(events), nodes, events, Outer(rules, j, vs, path + [step]));
      cur := parent;
      LogGrows(old(nodes) + [node], old(events), nodes, events, Outer(rules, j, vs, path + [step]));
      assert nodes[..size] == old(nodes);
      if |events| == count {
        nodes := nodes[..size];
      }
    }

    method Array(start: nat, ghost j: Json, ghost path: seq<PathStep>) returns (end: nat)
      requires Valid() && PathOf(nodes, cur) == path
      requires j.Arr? && WellFormed(j) && At(src, start, Render(j))
      modifies this`nodes, this`cur, this`events
      ensures Valid() && cur == old(cur) && end == start + |Render(j)|
      ensures Logged(old(nodes), old(events), nodes, events, Outer(rules, j, start, path))
      decreases j, 1
    {
      hide Render, WellFormed, WellFormedElems, Outer, OuterElems, ElemsText, At, Logged, PathOf, Linked, EventsIn,
           SkipWs;
      OpeningAt(src, start, j);
      OuterOfEmpty(rules, j, start, path);
      LoggedNothing(nodes, events);
      var i: nat := FindNonWs(src, start + 1);
      if src[i] == ']' {
        return i + 1;
      }
      ElemsWellFormed(j);
      RenderedElems(rules, j, start, path);
      end := Elements(i, j, path);
    }

    /** The element loop of `array`. */
    method Elements(first: nat, ghost j: Json, ghost path: seq<PathStep>) returns (end: nat)
      requires Valid() && PathOf(nodes, cur) == path
      requires j.Arr? && j.elems != [] && WellFormedElems(j.elems)
      requires first <= |src| && At(src, first, ElemsText(j.elems, 0))
      modifies this`nodes, this`cur, this`events
      ensures Valid() && cur == old(cur) && end == first + |ElemsText(j.elems, 0)|
      ensures Logged(old(nodes), old(events), nodes, events, OuterElems(rules, j.elems, 0, first, path))
      decreases j, 0
    {
      hide Render, WellFormed, ElemsText, ElemsRest, Outer, OuterElems, Logged, At, PathOf, Linked, EventsIn, SkipWs,
           Delimited, AllWs;
      LoggedNothing(nodes, events);
      var i: nat, n: nat := first, 0;
      ghost var found: seq<Found> := [];
      ghost var all := OuterElems(rules, j.elems, 0, first, path);
      while true
        invariant Valid() && cur == old(cur) && PathOf(nodes, cur) == path
        invariant n < |j.elems| && i <= |src| && At(src, i, ElemsText(j.elems, n))
        invariant i + |ElemsText(j.elems, n)| == first + |ElemsText(j.elems, 0)|
        invariant Logged(old(nodes), old(events), nodes, events, found)
        invariant found + OuterElems(rules, j.elems, n, i, path) == all
        decreases |j.elems| - n
      {
        ghost var elem := j.elems[n];
        ElementAt(src, i, j.elems, n);
        UnfoldElems(rules, j.elems, n, i, path);
        ghost var nodes1, events1 := nodes, events;
        ghost var below := Outer(rules, elem.value, i, rules.Below(path, Index(n)));
        var ve := Step(Index(n), i, elem.value, path);
        LogGrows(nodes1, events1, nodes, events, below);
        PathStable(nodes1, nodes, cur);
        LoggedThen(old(nodes), old(events), nodes1, events1, nodes, events, found, below);
        found := found + below;
        i := FindNonWs(src, ve);
        if src[i] == ']' {
          assert found == all;
          return i + 1;
        }
        NextElementAt(src, i, j.elems, n);
        i := FindNonWs(src, i + 1);
        n := n + 1;
      }
    }

    /** An object that is itself an image replaces whatever its members logged. */
    method Object(start: nat, ghost j: Json, ghost path: seq<PathStep>) returns (end: nat)
      requires Valid() && PathOf(nodes, cur) == path
      requires j.Obj? && WellFormed(j) && At(src, start, Render(j))
      modifies this`nodes, this`cur, this`events
      ensures Valid() && cur == old(cur) && end == start + |Render(j)|
      ensures Logged(old(nodes), old(events), nodes, events, Outer(rules, j, start, path))
      decreases j, 2
    {
      hide Render, WellFormed, WellFormedMembers, Outer, OuterMembers, MembersText, At, Logged, PathOf, Linked,
           EventsIn, SkipWs;
      OpeningAt(src, start, j);
      OuterOfEmpty(rules, j, start, path);
      LoggedNothing(nodes, events);
      var i: nat := FindNonWs(src, start + 1);
      if src[i] == '}' {
        return i + 1;
      }
      MembersWellFormed(j);
      RenderedMembers(j);
      end := NonEmpty(start, i, j, path);
    }

    method NonEmpty(start: nat, first: nat, ghost j: Json, ghost path: seq<PathStep>) returns (end: nat)
      requires Valid() && PathOf(nodes, cur) == path
      requires j.Obj? && j.members != [] && WellFormedMembers(j.members) && first == start + 1 + |j.members[0].pre|
      requires first <= |src| && At(src, first, MembersText(j.members, 0)) &&
               |Render(j)| == 1 + |j.members[0].pre| + |MembersText(j.members, 0)|
      modifies this`nodes, this`cur, this`events
      ensures Valid() && cur == old(cur) && end == start + |Render(j)|
      ensures Logged(old(nodes), old(events), nodes, events, Outer(rules, j, start, path))
      decreases j, 1
    {
      hide Render, Outer, OuterMembers, MembersText, WellFormedMembers, At, Logged, PathOf, Linked, EventsIn,
           MemberFacts, Judge;
      var count, size := |events|, |nodes|;
      ghost var found;
      var facts;
      end, facts, found := Members(first, j, path);
      OuterOfObject(rules, j, start, path, found);
      LogGrows(old(nodes), old(events), nodes, events, found);
      match Judge(rules, facts) {
        case Image =>
          events := events[..count] + [Event(start, end, cur, None)];
          nodes := nodes[..size];
          LoggedSelf(old(nodes), old(events), Event(start, end, cur, None));
          LogGrows(old(nodes), old(events), nodes, events, [Found(start, end, path, None)]);
        case ForeignImage(key) =>
          events := events[..count] + [Event(start, end, cur, Some(key))];
          nodes := nodes[..size];
          LoggedSelf(old(nodes), old(events), Event(start, end, cur, Some(key)));
          LogGrows(old(nodes), old(events), nodes, events, [Found(start, end, path, Some(key))]);
        case Plain =>
      }
    }

    /** The member loop of `object`: its facts, and the log of what stands inside. */
    method Members(first: nat, ghost j: Json, ghost path: seq<PathStep>) returns (end: nat, facts: Facts,
        ghost found: seq<Found>)
      requires Valid() && PathOf(nodes, cur) == path
      requires j.Obj? && j.members != [] && WellFormedMembers(j.members)
      requires first <= |src| && At(src, first, MembersText(j.members, 0))
      modifies this`nodes, this`cur, this`events
      ensures Valid() && cur == old(cur) && end == first + |MembersText(j.members, 0)|
      ensures found == OuterMembers(rules, j.members, 0, first, path)
      ensures Logged(old(nodes), old(events), nodes, events, found)
      ensures facts == MemberFacts(rules, j.members, |j.members|)
      decreases j, 0
    {
      hide Render, WellFormed, MembersText, Outer, OuterMembers, Logged, At, PathOf, Linked, EventsIn, SkipWs,
           SkipValue, Delimited, AllWs, StringToken, MembersRest, MemberBody, MemberFacts, AddFact;
      LoggedNothing(nodes, events);
      NoFactsYet(rules, j.members);
      var i: nat, n: nat := first, 0;
      found := [];
      facts := NO_FACTS;
      while true
        invariant Valid() && cur == old(cur) && PathOf(nodes, cur) == path
        invariant n < |j.members| && i <= |src| && At(src, i, MembersText(j.members, n))
        invariant i + |MembersText(j.members, n)| == first + |MembersText(j.members, 0)|
        invariant Logged(old(nodes), old(events), nodes, events, found)
        invariant found + OuterMembers(rules, j.members, n, i, path) == OuterMembers(rules, j.members, 0, first, path)
        invariant facts == MemberFacts(rules, j.members, n)
        decreases |j.members| - n
      {
        ghost var m := j.members[n];
        MemberAt(src, i, j.members, n);
        UnfoldMembers(rules, j.members, n, i, path);
        var ke := FindValueEnd(src, i);
        var key := src[i..ke];
        var vs := FindNonWs(src, ke);
        vs := FindNonWs(src, vs + 1);
        MemberValueAt(src, vs, j.members, n);
        ghost var nodes1, events1 := nodes, events;
        ghost var below := Outer(rules, m.value, vs, rules.Below(path, Key(m.key)));
        var ve := Step(Key(key), vs, m.value, path);
        LogGrows(nodes1, events1, nodes, events, below);
        PathStable(nodes1, nodes, cur);
        LoggedThen(old(nodes), old(events), nodes1, events1, nodes, events, found, below);
        found := found + below;
        ValueText(src, vs, m.value);
        NextFacts(rules, j.members, n);
        facts := LearnMember(rules, facts, key, src[vs..ve]);
        i := FindNonWs(src, ve);
        if src[i] == '}' {
          return i + 1, facts, found;
        }
        NextMemberAt(src, i, j.members, n);
        i := FindNonWs(src, i + 1);
        n := n + 1;
      }
    }
  }

  lemma LogGrows(nodes0: seq<PathNode>, events0: seq<Event>, nodes: seq<PathNode>, events: seq<Event>,
                 found: seq<Found>)
    requires Logged(nodes0, events0, nodes, events, found)
    ensures Linked(nodes0) && Linked(nodes) && nodes0 <= nodes && EventsIn(nodes0, events0) &&
            EventsIn(nodes, events) && events0 <= events
    ensures nodes[..|nodes0|] == nodes0 && events[..|events0|] == events0
    ensures |events| == |events0| + |found|
  {
  }

  predicate WellFormedMembers(members: seq<Member>) {
    forall i :: 0 <= i < |members| ==>
      && AllWs(members[i].pre) && AllWs(members[i].gap) && AllWs(members[i].colon) && AllWs(members[i].post)
      && StringToken(members[i].key) && WellFormed(members[i].value)
  }

  lemma MembersWellFormed(j: Json)
    requires j.Obj? && WellFormed(j)
    ensures WellFormedMembers(j.members)
  {
  }

  predicate WellFormedElems(elems: seq<Elem>) {
    forall i :: 0 <= i < |elems| ==> AllWs(elems[i].pre) && AllWs(elems[i].post) && WellFormed(elems[i].value)
  }

  lemma ElemsWellFormed(j: Json)
    requires j.Arr? && WellFormed(j)
    ensures WellFormedElems(j.elems)
  {
  }

  lemma RenderedElems(r: Rules, j: Json, pos: nat, path: seq<PathStep>)
    requires j.Arr? && j.elems != []
    ensures |Render(j)| == 1 + |j.elems[0].pre| + |ElemsText(j.elems, 0)|
    ensures Outer(r, j, pos, path) == OuterElems(r, j.elems, 0, pos + 1 + |j.elems[0].pre|, path)
  {
    hide ElemsText, OuterElems;
  }

  lemma RenderedMembers(j: Json)
    requires j.Obj? && j.members != []
    ensures |Render(j)| == 1 + |j.members[0].pre| + |MembersText(j.members, 0)|
  {
    hide MembersText;
  }

  lemma OuterOfObject(r: Rules, j: Json, pos: nat, path: seq<PathStep>, inside: seq<Found>)
    requires j.Obj? && j.members != [] && inside == OuterMembers(r, j.members, 0, pos + 1 + |j.members[0].pre|, path)
    ensures Outer(r, j, pos, path) ==
            match JudgeObject(r, j.members)
            case Plain => inside
            case Image => [Found(pos, pos + |Render(j)|, path, None)]
            case ForeignImage(key) => [Found(pos, pos + |Render(j)|, path, Some(key))]
  {
    hide OuterMembers, Render;
  }

  lemma UnfoldElems(r: Rules, elems: seq<Elem>, n: nat, pos: nat, path: seq<PathStep>)
    requires n < |elems|
    ensures OuterElems(r, elems, n, pos, path) ==
            Outer(r, elems[n].value, pos, r.Below(path, Index(n))) +
            if n + 1 == |elems| then []
            else OuterElems(r, elems, n + 1, pos + |Render(elems[n].value)| + |elems[n].post| + 1 + |elems[n + 1].pre|,
                            path)
    ensures |ElemsText(elems, n)| == |Render(elems[n].value)| + |elems[n].post| +
            if n + 1 == |elems| then 1 else 1 + |elems[n + 1].pre| + |ElemsText(elems, n + 1)|
  {
    hide Outer, Render;
  }

  lemma UnfoldMembers(r: Rules, members: seq<Member>, n: nat, pos: nat, path: seq<PathStep>)
    requires n < |members|
    ensures var m := members[n]; var at := pos + |MemberHead(m)|;
            OuterMembers(r, members, n, pos, path) ==
            Outer(r, m.value, at, r.Below(path, Key(m.key))) +
            if n + 1 == |members| then []
            else OuterMembers(r, members, n + 1, at + |Render(m.value)| + |m.post| + 1 + |members[n + 1].pre|, path)
    ensures var m := members[n];
            |MembersText(members, n)| == |MemberHead(m)| + |Render(m.value)| + |m.post| +
            if n + 1 == |members| then 1 else 1 + |members[n + 1].pre| + |MembersText(members, n + 1)|
  {
    hide Outer, Render, MemberHead;
  }

  lemma NoFactsYet(r: Rules, members: seq<Member>)
    ensures MemberFacts(r, members, 0) == NO_FACTS
  {
  }

  lemma NextFacts(r: Rules, members: seq<Member>, n: nat)
    requires n < |members|
    ensures MemberFacts(r, members, n + 1) ==
            AddFact(r, MemberFacts(r, members, n), members[n].key, Render(members[n].value))
  {
  }

  lemma ValueText(src: string, i: nat, j: Json)
    requires WellFormed(j) && At(src, i, Render(j))
    ensures i + |Render(j)| <= |src| && src[i..i + |Render(j)|] == Render(j)
    ensures Render(j) != "" && i < |src| && Render(j)[0] == src[i]
  {
    KindOfFirst(j);
    hide Render, WellFormed;
    AtFirst(src, i, Render(j));
  }

  lemma OuterOfEmpty(r: Rules, j: Json, pos: nat, path: seq<PathStep>)
    ensures j.Arr? && j.elems == [] ==> Outer(r, j, pos, path) == []
    ensures j.Obj? && j.members == [] ==> Outer(r, j, pos, path) == []
  {
  }

  lemma OuterOfLeaf(r: Rules, j: Json, pos: nat, path: seq<PathStep>)
    requires j.Scalar? || j.Str?
    ensures Outer(r, j, pos, path) == []
  {
  }
}
