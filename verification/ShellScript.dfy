/** Shell quoting and the setup script (sandbox/command.go:237-294), read back by the quoting rules of the POSIX Shell
    Command Language: section 2.2.1 (escape character) and section 2.2.2 (single quotes). */
module ShellScript {

  import opened Decimal

  // ----- Writing -----

  /** Every single quote leaves the quotes, stands escaped, and enters them again. */
  function Escaped(arg: string): string {
    if arg == "" then ""
    else (if arg[0] == '\'' then "'\\''" else [arg[0]]) + Escaped(arg[1..])
  }

  function ShellQuote(arg: string): string {
    "'" + Escaped(arg) + "'"
  }

  const GUARD := " || exit 125\n"

  const FINAL := "case \"$1\" in -*) \"$@\"; exit $?;; esac\nexec \"$@\""

  /** The arguments from the i-th on, quoted and parted by blanks. */
  function Quoted(argv: seq<string>, i: nat): string
    requires i < |argv|
    decreases |argv| - i
  {
    ShellQuote(argv[i]) + if i + 1 == |argv| then "" else " " + Quoted(argv, i + 1)
  }

  /** The lines from the k-th setup command on, then `tail`. */
  function Lines(setup: seq<seq<string>>, k: nat, tail: string): string
    requires k <= |setup|
    decreases |setup| - k
  {
    if k == |setup| then tail
    else if setup[k] == [] then Lines(setup, k + 1, tail)
    else Quoted(setup[k], 0) + GUARD + Lines(setup, k + 1, tail)
  }

  /** `buildSetupScript`. */
  method BuildSetupScript(setup: seq<seq<string>>) returns (script: string)
    ensures script == Lines(setup, 0, FINAL)
  {
    hide Quoted;
    script := "";
    for k := 0 to |setup|
      invariant script + Lines(setup, k, FINAL) == Lines(setup, 0, FINAL)
    {
      if |setup[k]| == 0 {
        continue;
      }
      var line := WriteArgs(setup[k]);
      ghost var rest := Lines(setup, k + 1, FINAL);
      assert script + (line + GUARD + rest) == script + line + GUARD + rest;
      script := script + line + GUARD;
    }
    script := script + FINAL;
  }

  method WriteArgs(argv: seq<string>) returns (line: string)
    requires argv != []
    ensures line == Quoted(argv, 0)
  {
    hide Quoted, ShellQuote, ArgsFrom;
    line := "";
    ArgsEnds(argv);
    assert line + Quoted(argv, 0) == Quoted(argv, 0);
    for i := 0 to |argv|
      invariant line + ArgsFrom(argv, i) == Quoted(argv, 0)
    {
      ArgsStep(argv, i);
      ghost var rest := ArgsFrom(argv, i + 1);
      var word := if i > 0 then " " + ShellQuote(argv[i]) else ShellQuote(argv[i]);
      Regroup(line, word, rest);
      line := line + word;
    }
    assert line + "" == line;
  }

  lemma Regroup(a: string, b: string, c: string)
    ensures a + b + c == a + (b + c)
  {
  }

  /** What is still to be written, the separating blank included. */
  function ArgsFrom(argv: seq<string>, i: nat): string
    requires i <= |argv|
  {
    if i == |argv| then "" else (if i == 0 then "" else " ") + Quoted(argv, i)
  }

  lemma ArgsStep(argv: seq<string>, i: nat)
    requires i < |argv|
    ensures ArgsFrom(argv, i) == (if i > 0 then " " + ShellQuote(argv[i]) else ShellQuote(argv[i])) +
            ArgsFrom(argv, i + 1)
  {
    hide ShellQuote;
  }

  lemma ArgsEnds(argv: seq<string>)
    requires argv != []
    ensures ArgsFrom(argv, 0) == Quoted(argv, 0) && ArgsFrom(argv, |argv|) == ""
  {
  }

  // ----- Reading -----

  datatype Token = Word(text: string) | OrElse

  predicate EndsWord(c: char) {
    c == ' ' || c == '\t' || c == '\n' || c == '|'
  }

  /** Characters that mean something to the shell outside quotes: a reader of plain words refuses them. */
  predicate Special(c: char) {
    c in "$`\"&;<>()*?[#~=%"
  }

  /** A word from outside quotes: its text, and what is left of the line. */
  function Outside(s: string): (r: Option<(string, string)>)
    ensures r.Some? ==> |r.value.1| <= |s|
    decreases |s|
  {
    if s == "" || EndsWord(s[0]) then Some(("", s))
    else if s[0] == '\'' then Inside(s[1..])
    else if s[0] == '\\' then
      if |s| == 1 then None
      else if s[1] == '\n' then Outside(s[2..])
      else Put(s[1], Outside(s[2..]))
    else if Special(s[0]) then None
    else Put(s[0], Outside(s[1..]))
  }

  /** Inside single quotes every character stands for itself. */
  function Inside(s: string): (r: Option<(string, string)>)
    ensures r.Some? ==> |r.value.1| <= |s|
    decreases |s|
  {
    if s == "" then None
    else if s[0] == '\'' then Outside(s[1..])
    else Put(s[0], Inside(s[1..]))
  }

  function Put(c: char, r: Option<(string, string)>): Option<(string, string)> {
    match r case None => None case Some((w, rest)) => Some(([c] + w, rest))
  }

  /** One command line: its tokens up to the newline, and the text behind it. */
  function ReadLine(s: string): (r: Option<(seq<Token>, string)>)
    ensures r.Some? ==> |r.value.1| < |s|
    decreases |s|
  {
    if s == "" then None
    else if s[0] == '\n' then Some(([], s[1..]))
    else if s[0] == ' ' || s[0] == '\t' then ReadLine(s[1..])
    else if s[0] == '|' then (if |s| >= 2 && s[1] == '|' then First(OrElse, ReadLine(s[2..])) else None)
    else
      match Outside(s)
      case None => None
      case Some((w, rest)) => if |rest| == |s| then None else First(Word(w), ReadLine(rest))
  }

  function First(t: Token, r: Option<(seq<Token>, string)>): Option<(seq<Token>, string)> {
    match r case None => None case Some((ts, rest)) => Some(([t] + ts, rest))
  }

  function ReadLines(s: string, n: nat): Option<(seq<seq<Token>>, string)>
    decreases n
  {
    if n == 0 then Some(([], s))
    else
      match ReadLine(s)
      case None => None
      case Some((line, rest)) =>
        match ReadLines(rest, n - 1) case None => None case Some((lines, end)) => Some(([line] + lines, end))
  }

  // ----- Round trip -----

  lemma Unfold(s: string, c: char, t: string)
    requires s == [c] + t
    ensures Inside(s) == if c == '\'' then Outside(t) else Put(c, Inside(t))
    ensures c == '\'' ==> Outside(s) == Inside(t)
  {
    assert s[1..] == t;
  }

  /** From inside quotes, an escaped argument and its closing quote read as the argument. */
  lemma {:induction false} EscapedReads(arg: string, rest: string)
    requires rest != "" && EndsWord(rest[0])
    ensures Inside(Escaped(arg) + "'" + rest) == Some((arg, rest))
    decreases |arg|
  {
    if arg == "" {
      Unfold(Escaped(arg) + "'" + rest, '\'', rest);
    } else {
      EscapedReads(arg[1..], rest);
      var more := Escaped(arg[1..]) + "'" + rest;
      assert arg == [arg[0]] + arg[1..];
      if arg[0] == '\'' {
        QuoteReads(more);
        assert Escaped(arg) + "'" + rest == "'\\''" + more;
      } else {
        Unfold([arg[0]] + more, arg[0], more);
        assert Escaped(arg) + "'" + rest == [arg[0]] + more;
      }
    }
  }

  lemma QuoteReads(more: string)
    ensures Inside("'\\''" + more) == Put('\'', Inside(more))
  {
    var s := "\\''" + more;
    assert "'\\''" + more == ['\''] + s;
    Unfold("'\\''" + more, '\'', s);
    assert s[0] == '\\' && s[1] == '\'';
    assert s[2..] == ['\''] + more;
    Unfold(s[2..], '\'', more);
  }

  lemma QuotedArgReads(arg: string, rest: string)
    requires rest != "" && EndsWord(rest[0])
    ensures Outside(ShellQuote(arg) + rest) == Some((arg, rest))
  {
    EscapedReads(arg, rest);
    var s := ShellQuote(arg) + rest;
    assert s == ['\''] + (Escaped(arg) + "'" + rest);
    Unfold(s, '\'', Escaped(arg) + "'" + rest);
  }

  function Words(argv: seq<string>, i: nat): seq<Token>
    requires i <= |argv|
    decreases |argv| - i
  {
    if i == |argv| then [] else [Word(argv[i])] + Words(argv, i + 1)
  }

  lemma {:induction false} QuotedReads(argv: seq<string>, i: nat, rest: string, ts: seq<Token>, left: string)
    requires i < |argv| && rest != "" && EndsWord(rest[0]) && ReadLine(rest) == Some((ts, left))
    ensures ReadLine(Quoted(argv, i) + rest) == Some((Words(argv, i) + ts, left))
    decreases |argv| - i
  {
    hide *;
    QuotedSplit(argv, i, rest);
    if i + 1 == |argv| {
      WordThenLine(argv[i], rest);
      LastWord(argv, i, ts, left);
    } else {
      var more := Quoted(argv, i + 1) + rest;
      QuotedReads(argv, i + 1, rest, ts, left);
      BlankThenLine(more);
      BlankEnds(more);
      WordThenLine(argv[i], " " + more);
      NextWord(argv, i, ts, left);
    }
  }

  lemma BlankEnds(s: string)
    ensures " " + s != "" && EndsWord((" " + s)[0])
  {
  }

  lemma QuotedSplit(argv: seq<string>, i: nat, rest: string)
    requires i < |argv|
    ensures Quoted(argv, i) + rest ==
            ShellQuote(argv[i]) + if i + 1 == |argv| then rest else " " + (Quoted(argv, i + 1) + rest)
  {
    hide ShellQuote;
  }

  lemma LastWord(argv: seq<string>, i: nat, ts: seq<Token>, left: string)
    requires i + 1 == |argv|
    ensures First(Word(argv[i]), Some((ts, left))) == Some((Words(argv, i) + ts, left))
  {
    assert Words(argv, i + 1) == [];
    assert Words(argv, i) + ts == [Word(argv[i])] + ts;
  }

  lemma NextWord(argv: seq<string>, i: nat, ts: seq<Token>, left: string)
    requires i + 1 < |argv|
    ensures First(Word(argv[i]), Some((Words(argv, i + 1) + ts, left))) == Some((Words(argv, i) + ts, left))
  {
    assert [Word(argv[i])] + (Words(argv, i + 1) + ts) == Words(argv, i) + ts;
  }

  lemma WordThenLine(arg: string, tail: string)
    requires tail != "" && EndsWord(tail[0])
    ensures ReadLine(ShellQuote(arg) + tail) == First(Word(arg), ReadLine(tail))
  {
    hide Outside;
    QuotedArgReads(arg, tail);
    var s := ShellQuote(arg) + tail;
    assert s[0] == '\'' && |tail| < |s|;
  }

  lemma BlankThenLine(s: string)
    ensures ReadLine(" " + s) == ReadLine(s)
  {
    assert (" " + s)[1..] == s;
  }

  lemma {:induction false} PlainWord(w: string, rest: string)
    requires forall c :: c in w ==> !EndsWord(c) && !Special(c) && c != '\'' && c != '\\'
    requires rest != "" && EndsWord(rest[0])
    ensures Outside(w + rest) == Some((w, rest))
    decreases |w|
  {
    if w == "" {
      assert w + rest == rest;
    } else {
      assert forall c :: c in w[1..] ==> c in w;
      PlainWord(w[1..], rest);
      assert (w + rest)[1..] == w[1..] + rest;
      assert w == [w[0]] + w[1..];
    }
  }

  lemma PlainThenLine(w: string, rest: string)
    requires w != "" && (forall c :: c in w ==> !EndsWord(c) && !Special(c) && c != '\'' && c != '\\')
    requires rest != "" && EndsWord(rest[0])
    ensures ReadLine(w + rest) == First(Word(w), ReadLine(rest))
  {
    hide Outside;
    PlainWord(w, rest);
    assert (w + rest)[0] == w[0] && w[0] in w;
  }

  const GUARD_TOKENS := [OrElse, Word("exit"), Word("125")]

  lemma GuardReads(rest: string)
    ensures ReadLine(GUARD + rest) == Some((GUARD_TOKENS, rest))
  {
    hide *;
    var c := " " + ("exit" + (" " + ("125" + ("\n" + rest))));
    GuardSplit(rest);
    StatusReads(rest);
    ExitReads(rest);
    OrThenLine(c);
    BlankThenLine("||" + c);
    GuardTokens(rest);
  }

  lemma GuardTokens(rest: string)
    ensures First(OrElse, Some(([Word("exit"), Word("125")], rest))) == Some((GUARD_TOKENS, rest))
  {
    assert [OrElse] + [Word("exit"), Word("125")] == GUARD_TOKENS;
  }

  lemma StatusReads(rest: string)
    ensures ReadLine(" " + ("125" + ("\n" + rest))) == Some(([Word("125")], rest))
  {
    hide ReadLine, Outside;
    NewlineEnds(rest);
    PlainThenLine("125", "\n" + rest);
    BlankThenLine("125" + ("\n" + rest));
    assert [Word("125")] + [] == [Word("125")];
  }

  lemma ExitReads(rest: string)
    ensures ReadLine(" " + ("exit" + (" " + ("125" + ("\n" + rest))))) == Some(([Word("exit"), Word("125")], rest))
  {
    hide ReadLine, Outside;
    StatusReads(rest);
    var b := " " + ("125" + ("\n" + rest));
    PlainThenLine("exit", b);
    BlankThenLine("exit" + b);
    assert [Word("exit")] + [Word("125")] == [Word("exit"), Word("125")];
  }

  lemma GuardSplit(rest: string)
    ensures GUARD + rest == " " + ("||" + (" " + ("exit" + (" " + ("125" + ("\n" + rest))))))
  {
  }

  lemma NewlineEnds(rest: string)
    ensures ReadLine("\n" + rest) == Some(([], rest))
  {
    assert ("\n" + rest)[1..] == rest;
  }

  lemma OrThenLine(s: string)
    ensures ReadLine("||" + s) == First(OrElse, ReadLine(s))
  {
    assert ("||" + s)[2..] == s;
  }

  /** The commands the script must run: each non-empty argv, guarded. */
  function Guarded(setup: seq<seq<string>>, k: nat): seq<seq<Token>>
    requires k <= |setup|
    decreases |setup| - k
  {
    if k == |setup| then []
    else (if setup[k] == [] then [] else [Words(setup[k], 0) + GUARD_TOKENS]) + Guarded(setup, k + 1)
  }

  /** Reading the script gives back exactly each non-empty argv in order, each guarded by its exit 125, and then the
      final lines: for every content of every argument, nothing outside the quotes but plain words and the guard. */
  lemma {:induction false} ScriptReadsBack(setup: seq<seq<string>>, k: nat, tail: string)
    requires k <= |setup|
    ensures ReadLines(Lines(setup, k, tail), |Guarded(setup, k)|) == Some((Guarded(setup, k), tail))
    decreases |setup| - k
  {
    hide ReadLine, Quoted, Words;
    if k < |setup| {
      ScriptReadsBack(setup, k + 1, tail);
      if setup[k] != [] {
        var rest := Lines(setup, k + 1, tail);
        var line := Words(setup[k], 0) + GUARD_TOKENS;
        GuardReads(rest);
        QuotedReads(setup[k], 0, GUARD + rest, GUARD_TOKENS, rest);
        assert Lines(setup, k, tail) == Quoted(setup[k], 0) + (GUARD + rest);
        assert Guarded(setup, k) == [line] + Guarded(setup, k + 1);
        OneMoreLine(Lines(setup, k, tail), line, rest, Guarded(setup, k + 1), tail);
      } else {
        assert Guarded(setup, k) == Guarded(setup, k + 1);
      }
    }
  }

  lemma OneMoreLine(s: string, line: seq<Token>, rest: string, lines: seq<seq<Token>>, end: string)
    requires ReadLine(s) == Some((line, rest)) && ReadLines(rest, |lines|) == Some((lines, end))
    ensures ReadLines(s, |[line] + lines|) == Some(([line] + lines, end))
  {
    hide ReadLine;
  }
}
