/** JSON texts as trees that remember their spelling (sections 2, 4, 5 and 7 of RFC 8259), and the byte
    skipping of the image scanner (decide/image.go:494-528). */
module JsonText {

  predicate IsWs(c: char) {
    c == ' ' || c == '\t' || c == '\n' || c == '\r'
  }

  predicate AllWs(s: string) {
    forall i :: 0 <= i < |s| ==> IsWs(s[i])
  }

  predicate IsDelimiter(c: char) {
    c == ',' || c == ']' || c == '}' || IsWs(c)
  }

  /** A value with the white space and the tokens it was written with. */
  datatype Json =
    | Scalar(tok: string)
    | Str(tok: string)
    | Arr(elems: seq<Elem>, pad: string)
    | Obj(members: seq<Member>, pad: string)

  datatype Elem = Elem(pre: string, value: Json, post: string)

  datatype Member = Member(pre: string, key: string, gap: string, colon: string, value: Json, post: string)

  /** The characters of a string after its opening quote: escapes are pairs, the closing quote ends it. */
  predicate StringBody(s: string) {
    s != "" &&
    if s[0] == '"' then |s| == 1
    else if s[0] == '\\' then |s| >= 2 && StringBody(s[2..])
    else StringBody(s[1..])
  }

  predicate StringToken(tok: string) {
    tok != "" && tok[0] == '"' && StringBody(tok[1..])
  }

  predicate ScalarToken(tok: string) {
    tok != "" && tok[0] != '"' && tok[0] != '{' && tok[0] != '[' && forall i :: 0 <= i < |tok| ==> !IsDelimiter(tok[i])
  }

  predicate WellFormed(j: Json) {
    match j
    case Scalar(tok) => ScalarToken(tok)
    case Str(tok) => StringToken(tok)
    case Arr(elems, pad) =>
      AllWs(pad) && forall i :: 0 <= i < |elems| ==>
        AllWs(elems[i].pre) && AllWs(elems[i].post) && WellFormed(elems[i].value)
    case Obj(members, pad) =>
      AllWs(pad) && forall i :: 0 <= i < |members| ==>
        && AllWs(members[i].pre) && AllWs(members[i].gap) && AllWs(members[i].colon) && AllWs(members[i].post)
        && StringToken(members[i].key) && WellFormed(members[i].value)
  }

  function Render(j: Json): (s: string)
    ensures s != "" || !WellFormed(j)
    decreases j
  {
    match j
    case Scalar(tok) => tok
    case Str(tok) => tok
    case Arr(elems, pad) => if elems == [] then "[" + pad + "]" else "[" + elems[0].pre + ElemsText(elems, 0)
    case Obj(members, pad) => if members == [] then "{" + pad + "}" else "{" + members[0].pre + MembersText(members, 0)
  }

  /** From the n-th element's value to the closing bracket. */
  function ElemsText(elems: seq<Elem>, n: nat): string
    requires n < |elems|
    decreases elems, |elems| - n
  {
    Render(elems[n].value) + elems[n].post + ElemsRest(elems, n)
  }

  function ElemsRest(elems: seq<Elem>, n: nat): string
    requires n < |elems|
    decreases elems, |elems| - n, 0
  {
    if n + 1 == |elems| then "]" else "," + elems[n + 1].pre + ElemsText(elems, n + 1)
  }

  /** From the n-th member's key to the closing brace. */
  function MembersText(members: seq<Member>, n: nat): string
    requires n < |members|
    decreases members, |members| - n
  {
    MemberHead(members[n]) + Render(members[n].value) + members[n].post + MembersRest(members, n)
  }

  function MemberHead(m: Member): string {
    m.key + m.gap + ":" + m.colon
  }

  function MembersRest(members: seq<Member>, n: nat): string
    requires n < |members|
    decreases members, |members| - n, 0
  {
    if n + 1 == |members| then "}" else "," + members[n + 1].pre + MembersText(members, n + 1)
  }

  // ----- Texts inside texts -----

  /** s stands at i in src. */
  predicate At(src: string, i: nat, s: string) {
    i + |s| <= |src| && src[i..i + |s|] == s
  }

  lemma AtSplit(src: string, i: nat, a: string, b: string)
    ensures At(src, i, a + b) <==> At(src, i, a) && At(src, i + |a|, b)
  {
    if i + |a| + |b| <= |src| {
      var s := src[i..i + |a| + |b|];
      assert s[..|a|] == src[i..i + |a|];
      assert s[|a|..] == src[i + |a|..i + |a| + |b|];
      if s == a + b {
        assert s[..|a|] == a && s[|a|..] == b;
      }
      if At(src, i, a) && At(src, i + |a|, b) {
        assert s == s[..|a|] + s[|a|..];
      }
    }
  }

  lemma AtFirst(src: string, i: nat, s: string)
    requires At(src, i, s) && s != ""
    ensures i < |src| && src[i] == s[0]
  {
    assert src[i..i + |s|][0] == src[i];
  }

  // ----- Skipping -----

  function SkipWs(src: string, i: nat): (k: nat)
    requires i <= |src|
    ensures i <= k <= |src|
    decreases |src| - i
  {
    if i < |src| && IsWs(src[i]) then SkipWs(src, i + 1) else i
  }

  method FindNonWs(src: string, i: nat) returns (k: nat)
    requires i <= |src|
    ensures k == SkipWs(src, i)
  {
    k := i;
    while k < |src| && IsWs(src[k])
      invariant i <= k <= |src| && SkipWs(src, k) == SkipWs(src, i)
    {
      k := k + 1;
    }
  }

  /** White space followed by anything else ends where the white space ends. */
  lemma {:induction false} SkipsWs(src: string, i: nat, ws: string)
    requires At(src, i, ws) && AllWs(ws)
    requires i + |ws| == |src| || !IsWs(src[i + |ws|])
    ensures SkipWs(src, i) == i + |ws|
    decreases |ws|
  {
    if ws != "" {
      AtFirst(src, i, ws);
      assert src[i + 1..i + |ws|] == src[i..i + |ws|][1..] == ws[1..];
      SkipsWs(src, i + 1, ws[1..]);
    }
  }

  /** Past the string whose body starts at i. */
  function SkipBody(src: string, i: nat): (k: nat)
    ensures k <= |src| || i > |src|
    decreases |src| - i
  {
    if i >= |src| then |src|
    else if src[i] == '\\' then SkipBody(src, i + 2)
    else if src[i] == '"' then i + 1
    else SkipBody(src, i + 1)
  }

  /** Past the scalar at i. */
  function SkipScalar(src: string, i: nat): (k: nat)
    requires i <= |src|
    ensures i <= k <= |src|
    decreases |src| - i
  {
    if i < |src| && !IsDelimiter(src[i]) then SkipScalar(src, i + 1) else i
  }

  function SkipValue(src: string, i: nat): (k: nat)
    requires i < |src|
  {
    if src[i] == '"' then SkipBody(src, i + 1) else SkipScalar(src, i)
  }

  /** `skipValue` and `skipString`. */
  method FindValueEnd(src: string, i: nat) returns (k: nat)
    requires i < |src|
    ensures k == SkipValue(src, i)
  {
    k := i;
    if src[i] == '"' {
      k := i + 1;
      while k < |src|
        invariant SkipBody(src, k) == SkipBody(src, i + 1)
      {
        if src[k] == '\\' {
          k := k + 1;
        } else if src[k] == '"' {
          return k + 1;
        }
        k := k + 1;
      }
      k := |src|;
    } else {
      while k < |src| && !IsDelimiter(src[k])
        invariant i <= k <= |src| && SkipScalar(src, k) == SkipScalar(src, i)
      {
        k := k + 1;
      }
    }
  }

  lemma {:induction false} SkipsBody(src: string, i: nat, body: string)
    requires At(src, i, body) && StringBody(body)
    ensures SkipBody(src, i) == i + |body|
    decreases |body|
  {
    AtFirst(src, i, body);
    var k := if body[0] == '\\' then 2 else 1;
    if body[0] != '"' {
      assert src[i + k..i + |body|] == src[i..i + |body|][k..] == body[k..];
      SkipsBody(src, i + k, body[k..]);
    }
  }

  lemma {:induction false} SkipsScalar(src: string, i: nat, tok: string)
    requires At(src, i, tok) && (forall k :: 0 <= k < |tok| ==> !IsDelimiter(tok[k]))
    requires i + |tok| == |src| || IsDelimiter(src[i + |tok|])
    ensures SkipScalar(src, i) == i + |tok|
    decreases |tok|
  {
    if tok != "" {
      AtFirst(src, i, tok);
      assert src[i + 1..i + |tok|] == src[i..i + |tok|][1..] == tok[1..];
      SkipsScalar(src, i + 1, tok[1..]);
    }
  }

  /** A value is followed by the end of the text or by a delimiter. */
  predicate Delimited(src: string, i: nat) {
    i == |src| || (i < |src| && IsDelimiter(src[i]))
  }

  lemma SkipsString(src: string, i: nat, tok: string)
    requires At(src, i, tok) && StringToken(tok)
    ensures i < |src| && SkipValue(src, i) == i + |tok|
  {
    AtFirst(src, i, tok);
    assert src[i + 1..i + |tok|] == src[i..i + |tok|][1..] == tok[1..];
    SkipsBody(src, i + 1, tok[1..]);
  }

  /** Any string or scalar is skipped exactly. */
  lemma SkipsValue(src: string, i: nat, j: Json)
    requires (j.Scalar? || j.Str?) && WellFormed(j) && At(src, i, Render(j)) && Delimited(src, i + |Render(j)|)
    ensures i < |src| && SkipValue(src, i) == i + |Render(j)|
  {
    AtFirst(src, i, Render(j));
    if j.Str? {
      SkipsString(src, i, j.tok);
    } else {
      SkipsScalar(src, i, j.tok);
    }
  }
}
