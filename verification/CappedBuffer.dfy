/** The head-and-ring output buffer (sandbox/output.go:44-217). `stream` is everything ever written. */
module CappedBuffer {

  import opened Decimal

  const HEAD_BYTES := 256 * 1024

  const TRUNCATION_MARKER := "\n... [output truncated by sandbox] ...\n"

  function Gap(elided: int): string {
    "\n... [" + Itoa(elided) + " bytes elided by sandbox] ...\n"
  }

  function Prefix(s: string, n: nat): string {
    if |s| <= n then s else s[..n]
  }

  function Suffix(s: string, n: nat): string {
    if |s| <= n then s else s[|s| - n..]
  }

  /** What the stream holds behind the head window. */
  function Beyond(s: string, head: nat): string {
    if |s| <= head then "" else s[head..]
  }

  /** The ring read from its oldest byte. */
  function Unrolled(ring: string, at: nat): string
    requires at <= |ring|
  {
    ring[at..] + ring[..at]
  }

  /** What `result` returns for a stream, whatever chunks it came in. */
  function Captured(max: int, head: nat, stream: string): string {
    if max <= 0 || |stream| <= max then stream
    else if head >= max then Prefix(stream, head) + TRUNCATION_MARKER
    else Prefix(stream, head) + Gap(|stream| - max) + Suffix(stream, max - head)
  }

  class Buffer {
    const max: int
    const head: nat
    const tailSize: nat
    var headBuf: string
    var ring: string
    var ringWrite: nat
    var ringFull: bool
    var truncated: bool
    var total: nat
    ghost var stream: string

    constructor (max: int)
      ensures Valid() && stream == "" && this.max == max
    {
      this.max := max;
      head := if max <= 0 then 0 else if HEAD_BYTES >= max then max else HEAD_BYTES;
      tailSize := if max <= 0 || HEAD_BYTES >= max then 0 else max - HEAD_BYTES;
      headBuf, ring, ringWrite, ringFull, truncated, total := "", "", 0, false, false, 0;
      stream := "";
    }

    ghost predicate Shape()
      reads this
    {
      if max <= 0 then head == tailSize == 0
      else head == (if HEAD_BYTES >= max then max else HEAD_BYTES) && head + tailSize == max
    }

    /** The windows hold the first head bytes and the last tailSize bytes behind them. */
    ghost predicate Windows()
      reads this
    {
      var rest := Beyond(stream, head);
      if max <= 0 then headBuf == stream && ring == "" && !ringFull && !truncated
      else
        && headBuf == Prefix(stream, head)
        && (if tailSize == 0 then ring == "" && !ringFull && (truncated <==> |stream| > head)
            else if ringFull then
              truncated && |ring| == tailSize <= |rest| && ringWrite < tailSize &&
                Unrolled(ring, ringWrite) == Suffix(rest, tailSize)
            else !truncated && ring == rest && |rest| < tailSize)
    }

    ghost predicate Valid()
      reads this
    {
      Shape() && Windows() && total == |stream|
    }

    method Write(p: string) returns (n: nat)
      requires Valid()
      modifies this
      ensures Valid() && stream == old(stream) + p && n == |p|
    {
      hide Prefix, Suffix, Beyond, Unrolled;
      total := total + |p|;
      if max <= 0 {
        headBuf := headBuf + p;
        stream := stream + p;
        return |p|;
      }
      var written := 0;
      while written < |p|
        invariant 0 <= written <= |p| && Shape() && Windows() && total == old(total) + |p|
        invariant stream == old(stream) + p[..written]
      {
        if |headBuf| < head {
          var room := head - |headBuf|;
          var take := if |p| - written > room then room else |p| - written;
          assert p[..written + take] == p[..written] + p[written..written + take];
          FillHead(p[written..written + take]);
          written := written + take;
          continue;
        }
        assert p[..written] + p[written..] == p;
        HeadIsFull();
        if tailSize == 0 {
          Discard(p[written..]);
        } else {
          WriteTail(p[written..]);
        }
        written := |p|;
        assert p[..|p|] == p;
        break;
      }
      assert p[..|p|] == p;
      return |p|;
    }

    lemma HeadIsFull()
      requires Shape() && Windows() && max > 0 && |headBuf| >= head
      ensures |headBuf| == head
    {
    }

    /** No tail window: what comes after the head is dropped. */
    method Discard(rest: string)
      requires Shape() && Windows() && max > 0 && |headBuf| == head && tailSize == 0 && rest != ""
      modifies this`truncated, this`stream
      ensures Windows() && stream == old(stream) + rest
    {
      truncated := true;
      HeadStays(stream, head, rest);
      stream := stream + rest;
    }

    method FillHead(take: string)
      requires Shape() && Windows() && max > 0 && |headBuf| + |take| <= head && |headBuf| < head
      modifies this`headBuf, this`stream
      ensures Windows() && stream == old(stream) + take
    {
      headBuf := headBuf + take;
      stream := stream + take;
    }

    /** The ring loop: fill it up once, then overwrite the oldest bytes. */
    method WriteTail(chunk: string)
      requires Shape() && Windows() && max > 0 && |headBuf| == head && tailSize > 0
      modifies this`ring, this`ringWrite, this`ringFull, this`truncated, this`stream
      ensures Windows() && stream == old(stream) + chunk
    {
      hide Prefix, Suffix, Beyond;
      var done := 0;
      while done < |chunk|
        invariant 0 <= done <= |chunk| && Windows() && |headBuf| == head
        invariant stream == old(stream) + chunk[..done]
      {
        var take := |chunk| - done;
        var room := if ringFull then |ring| - ringWrite else tailSize - |ring|;
        if take > room {
          take := room;
        }
        assert chunk[..done + take] == chunk[..done] + chunk[done..done + take];
        if !ringFull {
          Fill(chunk[done..done + take]);
        } else {
          Overwrite(chunk[done..done + take]);
        }
        done := done + take;
      }
      assert chunk[..|chunk|] == chunk;
    }

    method Fill(take: string)
      requires Shape() && Windows() && max > 0 && |headBuf| == head && tailSize > 0 && !ringFull &&
               |ring| + |take| <= tailSize
      modifies this`ring, this`ringWrite, this`ringFull, this`truncated, this`stream
      ensures Windows() && stream == old(stream) + take
    {
      HeadStays(stream, head, take);
      ring := ring + take;
      stream := stream + take;
      if |ring| == tailSize {
        ringWrite := 0;
        ringFull := true;
        truncated := true;
        assert Unrolled(ring, 0) == ring;
      }
    }

    lemma PastHead()
      requires Windows() && max > 0 && |headBuf| == head
      ensures |stream| >= head
    {
    }

    method Overwrite(take: string)
      requires Shape() && Windows() && max > 0 && |headBuf| == head && tailSize > 0 && ringFull &&
               ringWrite + |take| <= tailSize
      modifies this`ring, this`ringWrite, this`truncated, this`stream
      ensures Windows() && stream == old(stream) + take
    {
      hide Prefix, Suffix, Beyond, Unrolled;
      ghost var rest := Beyond(stream, head);
      PastHead();
      BeyondGrows(stream, head, take);
      HeadStays(stream, head, take);
      OverwriteTurns(ring, ringWrite, take);
      SuffixMoves(Beyond(stream, head), take, tailSize);
      ring := ring[..ringWrite] + take + ring[ringWrite + |take|..];
      stream := stream + take;
      ringWrite := ringWrite + |take|;
      if ringWrite >= |ring| {
        FullTurn(ring);
        ringWrite := 0;
        truncated := true;
      }
    }

    method Result() returns (text: string, flag: bool)
      requires Valid()
      ensures text == Captured(max, head, stream)
      ensures flag <==> max > 0 && (|stream| > max || (tailSize > 0 && |stream| == max))
    {
      hide Prefix, Suffix, Beyond, Unrolled, Gap, Captured;
      BeyondSuffix(stream, head, tailSize);
      CapturedIs(max, head, tailSize, stream);
      FlagMeans();
      var tail := ReadRing();
      if |tail| == 0 {
        if truncated {
          return headBuf + TRUNCATION_MARKER, true;
        }
        return headBuf, false;
      }
      var elided := total - |headBuf| - |tail|;
      if elided <= 0 {
        return headBuf + tail, truncated;
      }
      return headBuf + Gap(elided) + tail, true;
    }

    /** The flag is up once the last window is full, or past a head without a tail. */
    lemma FlagMeans()
      requires Valid()
      ensures truncated <==> max > 0 && (|stream| > max || (tailSize > 0 && |stream| == max))
      ensures max <= 0 ==> headBuf == stream
      ensures max > 0 ==> headBuf == Prefix(stream, head)
    {
    }

    /** The ring from its oldest byte on. */
    method ReadRing() returns (tail: string)
      requires Valid()
      ensures max > 0 && tailSize > 0 ==> tail == Suffix(Beyond(stream, head), tailSize)
      ensures max <= 0 || tailSize == 0 ==> tail == ""
      ensures max > 0 ==> |headBuf| == if |stream| <= head then |stream| else head
    {
      tail := "";
      if |ring| > 0 {
        tail := if ringFull then ring[ringWrite..] + ring[..ringWrite] else ring;
      }
    }

    method Written() returns (n: nat)
      requires Valid()
      ensures n == |stream|
    {
      n := total;
    }
  }

  lemma HeadStays(s: string, head: nat, more: string)
    requires |s| >= head
    ensures Prefix(s + more, head) == Prefix(s, head) && Beyond(s + more, head) == Beyond(s, head) + more
  {
  }

  lemma BeyondGrows(s: string, head: nat, more: string)
    requires |s| >= head
    ensures |Beyond(s + more, head)| == |Beyond(s, head)| + |more|
  {
  }

  lemma FullTurn(ring: string)
    ensures Unrolled(ring, |ring|) == Unrolled(ring, 0)
  {
  }

  lemma CapturedIs(max: int, head: nat, tailSize: nat, stream: string)
    requires if max <= 0 then head == tailSize == 0 else head + tailSize == max
    ensures max <= 0 || |stream| <= max ==> Captured(max, head, stream) == stream
    ensures max > 0 && |stream| > max && tailSize == 0 ==>
            Captured(max, head, stream) == Prefix(stream, head) + TRUNCATION_MARKER
    ensures max > 0 && |stream| > max && tailSize > 0 ==>
              Captured(max, head, stream) == Prefix(stream, head) + Gap(|stream| - max) + Suffix(stream, tailSize)
    ensures max > 0 && |stream| <= head ==> Prefix(stream, head) == stream
  {
    hide Gap, Suffix;
  }

  /** Overwriting from the oldest byte on drops that many of the oldest and appends the new ones. */
  lemma OverwriteTurns(ring: string, at: nat, take: string)
    requires at + |take| <= |ring|
    ensures var next := ring[..at] + take + ring[at + |take|..];
            |next| == |ring| && Unrolled(next, at + |take|) == Unrolled(ring, at)[|take|..] + take
  {
    var next := ring[..at] + take + ring[at + |take|..];
    assert next[at + |take|..] == ring[at + |take|..];
    assert next[..at + |take|] == ring[..at] + take;
    assert Unrolled(ring, at)[|take|..] == ring[at + |take|..] + ring[..at];
  }

  lemma SuffixMoves(s: string, take: string, n: nat)
    requires |take| <= n <= |s|
    ensures Suffix(s + take, n) == Suffix(s, n)[|take|..] + take
  {
  }

  lemma BeyondSuffix(s: string, head: nat, n: nat)
    ensures |Suffix(Beyond(s, head), n)| == if |s| <= head then 0 else if |s| - head <= n then |s| - head else n
    ensures |s| > head + n ==> Suffix(Beyond(s, head), n) == Suffix(s, n)
    ensures |s| <= head + n ==> Prefix(s, head) + Suffix(Beyond(s, head), n) == s
  {
  }
}
