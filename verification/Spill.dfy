/** Stand-ins for tool results over the output limit (agent/spill.go). */
module Spill {

  import opened Decimal
  import opened Chat

  const SPILL_PREVIEW_BYTES := 2048
  const SPILL_PREFIX := "[tool output spilled: "
  const SPILL_SUFFIX := " bytes]"

  function SpillMarker(ref: string, size: nat): string {
    SPILL_PREFIX + ref + ", " + Itoa(size) + SPILL_SUFFIX
  }

  /** Index of the last occurrence of ", " in s, or -1. */
  function LastSeparator(s: string): (i: int)
    ensures -1 <= i && (i >= 0 ==> i + 2 <= |s|)
  {
    if |s| < 2 then -1
    else if s[|s| - 2..] == ", " then |s| - 2
    else LastSeparator(s[..|s| - 1])
  }

  /** The text before the first newline. */
  function FirstLine(s: string): (r: string)
    ensures '\n' !in r
  {
    if s == "" || s[0] == '\n' then "" else [s[0]] + FirstLine(s[1..])
  }

  function CutPrefix(s: string, p: string): Option<string> {
    if p <= s then Some(s[|p|..]) else None
  }

  function CutSuffix(s: string, p: string): Option<string> {
    if |p| <= |s| && s[|s| - |p|..] == p then Some(s[..|s| - |p|]) else None
  }

  /** The ref and size of "ref, size", split at the last separator. */
  function ParseBody(body: string): Option<(string, int)> {
    var i := LastSeparator(body);
    if i < 0 then None
    else
      match Atoi(body[i + 2..])
      case None => None
      case Some(n) => Some((body[..i], n))
  }

  function ParseSpillMarker(text: string): Option<(string, int)> {
    match CutPrefix(FirstLine(text), SPILL_PREFIX)
    case None => None
    case Some(rest) =>
      match CutSuffix(rest, SPILL_SUFFIX)
      case None => None
      case Some(body) => ParseBody(body)
  }

  function TruncationMarker(shown: nat, size: nat): string {
    "[tool output truncated: " + Itoa(shown) + " of " + Itoa(size) + " bytes shown]"
  }

  /** The first byte of a UTF-8 sequence: anything but a continuation byte. */
  predicate RuneStart(c: char) {
    !(0x80 <= c as int < 0xC0)
  }

  /** Length of the well-formed UTF-8 sequence at the front of s (section 4 of RFC 3629), 0 if none. */
  function RuneLen(s: string): (n: nat)
    ensures n <= |s|
  {
    if s == "" then 0
    else
      var b := s[0] as int;
      if b < 0x80 then 1
      else if 0xC2 <= b <= 0xDF then (if |s| >= 2 && Cont(s[1], 0x80, 0xBF) then 2 else 0)
      else if 0xE0 <= b <= 0xEF then
        (if |s| >= 3 && Cont(s[1], if b == 0xE0 then 0xA0 else 0x80, if b == 0xED then 0x9F else 0xBF)
            && Cont(s[2], 0x80, 0xBF) then 3 else 0)
      else if 0xF0 <= b <= 0xF4 then
        (if |s| >= 4 && Cont(s[1], if b == 0xF0 then 0x90 else 0x80, if b == 0xF4 then 0x8F else 0xBF)
            && Cont(s[2], 0x80, 0xBF) && Cont(s[3], 0x80, 0xBF) then 4 else 0)
      else 0
  }

  predicate Cont(c: char, lo: int, hi: int) {
    lo <= c as int <= hi
  }

  predicate ValidUtf8(s: string) {
    s == "" || (RuneLen(s) > 0 && ValidUtf8(s[RuneLen(s)..]))
  }

  /** Where `headBytes` cuts: n itself when the text is shorter, else the last rune start at or before n. */
  function CutPoint(s: string, n: int): (k: nat)
    ensures k <= |s| && (n >= 0 ==> k <= n)
    decreases n
  {
    if n >= |s| then |s|
    else if n <= 0 then 0
    else if RuneStart(s[n]) then n
    else CutPoint(s, n - 1)
  }

  function Head(s: string, n: int): string {
    s[..CutPoint(s, n)]
  }

  method HeadBytes(s: string, n: int) returns (r: string)
    ensures r == Head(s, n)
  {
    if n >= |s| {
      return s;
    }
    if n <= 0 {
      return "";
    }
    var k := n;
    while k > 0 && !RuneStart(s[k])
      invariant 0 <= k <= n
      invariant CutPoint(s, k) == CutPoint(s, n)
    {
      k := k - 1;
    }
    r := s[..k];
  }

  /** A cut position that never splits a rune: the start, the end, or the front of a rune. */
  predicate Boundary(s: string, k: nat) {
    k <= |s| && (k == 0 || k == |s| || RuneStart(s[k]))
  }

  /** The head is cut on a boundary, and no later boundary fits in n bytes. */
  lemma {:induction false} HeadIsLongest(s: string, n: int)
    ensures Boundary(s, CutPoint(s, n))
    ensures forall k: nat :: Boundary(s, k) && k <= n ==> k <= CutPoint(s, n)
    decreases n
  {
    if 0 < n < |s| && !RuneStart(s[n]) {
      HeadIsLongest(s, n - 1);
    }
  }

  /** A boundary of a valid text never falls inside one of its runes. */
  lemma {:induction false} CutKeepsUtf8(s: string, k: nat)
    requires ValidUtf8(s) && Boundary(s, k)
    ensures ValidUtf8(s[..k])
    decreases |s|
  {
    if k == |s| {
      assert s[..k] == s;
    } else if 0 < k {
      var n := RuneLen(s);
      RuneHasNoBoundary(s, k);
      hide RuneLen;
      CutKeepsUtf8(s[n..], k - n);
      TakeThenDrop(s, n, k);
      assert s[..k] != "";
    }
  }

  lemma RuneHasNoBoundary(s: string, k: nat)
    requires RuneLen(s) > 0 && 0 < k <= |s| && (k == |s| || RuneStart(s[k]))
    ensures RuneLen(s) <= k && RuneLen(s[..k]) == RuneLen(s)
  {
  }

  lemma TakeThenDrop(s: string, n: nat, k: nat)
    requires n <= k <= |s|
    ensures s[..k][n..] == s[n..][..k - n]
  {
  }

  /** The preview of a valid UTF-8 text is valid UTF-8. */
  lemma HeadIsUtf8(s: string, n: int)
    requires ValidUtf8(s)
    ensures ValidUtf8(Head(s, n))
  {
    HeadIsLongest(s, n);
    CutKeepsUtf8(s, CutPoint(s, n));
  }

  function Min(a: int, b: int): int {
    if a < b then a else b
  }

  function SpillStandIn(ref: string, size: nat, text: string, limit: int): string {
    var marker := SpillMarker(ref, size);
    var preview := Head(text, Min(SPILL_PREVIEW_BYTES, limit - |marker| - 1));
    if preview == "" then marker else marker + "\n" + preview
  }

  /** A ref the record can carry. */
  predicate ValidSpillRef(ref: string) {
    ref != "" && '\n' !in ref && '\r' !in ref && ValidUtf8(ref)
  }

  lemma {:induction false} LastSeparatorOf(a: string, digits: string)
    requires forall i :: 0 <= i < |digits| ==> digits[i] != ','
    ensures LastSeparator(a + ", " + digits) == |a|
  {
    var s := a + ", " + digits;
    var k := |a|;
    assert s[k] == ',' && s[k + 1] == ' ';
    if digits == "" {
      assert s[|s| - 2..] == ", ";
    } else {
      var n := |digits| - 1;
      assert s[|s| - 2] != ',' by {
        if |digits| >= 2 {
          assert s[|s| - 2] == digits[n - 1];
        }
      }
      assert s[|s| - 2..][0] == s[|s| - 2];
      assert s[..|s| - 1] == a + ", " + digits[..n];
      LastSeparatorOf(a, digits[..n]);
    }
  }

  lemma CutPrefixOf(p: string, x: string)
    ensures CutPrefix(p + x, p) == Some(x)
  {
    assert (p + x)[|p|..] == x;
  }

  lemma CutSuffixOf(x: string, p: string)
    ensures CutSuffix(x + p, p) == Some(x)
  {
    assert (x + p)[|x + p| - |p|..] == p;
    assert (x + p)[..|x + p| - |p|] == x;
  }

  lemma ParseBodyOf(ref: string, size: nat)
    requires size <= MAX_INT64
    ensures ParseBody(ref + ", " + Itoa(size)) == Some((ref, size))
  {
    var digits := Itoa(size);
    forall i | 0 <= i < |digits| ensures digits[i] != ',' {
      assert digits[i] in digits;
    }
    LastSeparatorOf(ref, digits);
    assert (ref + ", " + digits)[|ref| + 2..] == digits;
    assert (ref + ", " + digits)[..|ref|] == ref;
    AtoiItoa(size);
  }

  lemma MarkerIsOneLine(ref: string, size: nat)
    requires '\n' !in ref
    ensures '\n' !in SpillMarker(ref, size)
  {
    assert '\n' !in SPILL_PREFIX && '\n' !in SPILL_SUFFIX && '\n' !in ", ";
    assert '\n' !in Itoa(size);
  }

  lemma {:induction false} FirstLineOf(line: string, rest: string)
    requires '\n' !in line
    requires rest == "" || rest[0] == '\n'
    ensures FirstLine(line + rest) == line
  {
    if line == "" {
      assert line + rest == rest;
    } else {
      assert (line + rest)[1..] == line[1..] + rest;
      FirstLineOf(line[1..], rest);
    }
  }

  lemma ParseMarkerOf(ref: string, size: nat, text: string)
    requires size <= MAX_INT64 && FirstLine(text) == SpillMarker(ref, size)
    ensures ParseSpillMarker(text) == Some((ref, size))
  {
    hide Itoa, FirstLine, ParseBody, CutPrefix, CutSuffix;
    var body := ref + ", " + Itoa(size);
    assert SpillMarker(ref, size) == SPILL_PREFIX + (body + SPILL_SUFFIX);
    CutPrefixOf(SPILL_PREFIX, body + SPILL_SUFFIX);
    CutSuffixOf(body, SPILL_SUFFIX);
    ParseBodyOf(ref, size);
  }

  /** Whatever the preview holds, the ref and the size of a spilled result stay readable in it. */
  lemma SpillRoundTrip(ref: string, size: nat, text: string, limit: int)
    requires ValidSpillRef(ref) && size <= MAX_INT64
    ensures ParseSpillMarker(SpillStandIn(ref, size, text, limit)) == Some((ref, size))
  {
    hide SpillMarker, SpillStandIn, FirstLine, ParseSpillMarker, ValidUtf8;
    var standIn := SpillStandIn(ref, size, text, limit);
    var marker := SpillMarker(ref, size);
    var preview := SpillFits(ref, size, text, limit);
    MarkerIsOneLine(ref, size);
    if preview == "" {
      FirstLineOf(marker, "");
      assert standIn == marker + "";
    } else {
      FirstLineOf(marker, "\n" + preview);
      assert standIn == marker + ("\n" + preview);
    }
    ParseMarkerOf(ref, size, standIn);
  }

  /** A spill stand-in fits the limit unless its marker alone is longer, and shows a valid preview. */
  lemma SpillFits(ref: string, size: nat, text: string, limit: int) returns (preview: string)
    ensures |SpillStandIn(ref, size, text, limit)| <= Max(limit, |SpillMarker(ref, size)|)
    ensures preview <= text && |preview| <= SPILL_PREVIEW_BYTES && (ValidUtf8(text) ==> ValidUtf8(preview))
    ensures SpillStandIn(ref, size, text, limit)
         == if preview == "" then SpillMarker(ref, size) else SpillMarker(ref, size) + "\n" + preview
  {
    var n := Min(SPILL_PREVIEW_BYTES, limit - |SpillMarker(ref, size)| - 1);
    preview := Head(text, n);
    if ValidUtf8(text) {
      HeadIsUtf8(text, n);
    }
  }

  /** Length of the truncation marker without its shown count. */
  function MarkerFixed(size: nat): nat {
    |TruncationMarker(0, size)| - 1
  }

  lemma MarkerLength(shown: nat, size: nat)
    ensures |TruncationMarker(shown, size)| == MarkerFixed(size) + |Digits(shown)|
  {
  }

  /** A head of `text`, followed by the marker that counts it, fits `limit`. */
  predicate Fits(text: string, k: nat, size: nat, limit: int) {
    Boundary(text, k) && k + |TruncationMarker(k, size)| <= limit
  }

  /** The head of the text, cut to leave room for a marker whose count has `d` digits. */
  function RoomyHead(text: string, size: nat, limit: int, d: nat): (k: nat)
    ensures k <= |text|
  {
    CutPoint(text, Min(|text|, limit - MarkerFixed(size) - d))
  }

  /** The first digit count from d on that holds the length of its own head. */
  function DigitsNeeded(text: string, size: nat, limit: int, d: nat): (r: nat)
    requires d >= 1
    ensures r >= d && |Digits(RoomyHead(text, size, limit, r))| <= r
    decreases |text| + 2 - d
  {
    if |Digits(RoomyHead(text, size, limit, d))| <= d then d
    else
      DigitsShort(RoomyHead(text, size, limit, d));
      DigitsNeeded(text, size, limit, d + 1)
  }

  lemma {:induction false} DigitsShort(n: nat)
    ensures |Digits(n)| <= n + 1
  {
    if n >= 10 {
      DigitsShort(n / 10);
    }
  }

  /** Bytes of the text a truncated result shows. */
  function Shown(text: string, size: nat, limit: int): (k: nat)
    ensures k <= |text|
  {
    RoomyHead(text, size, limit, DigitsNeeded(text, size, limit, 1))
  }

  function TruncatedText(text: string, size: nat, limit: int): string {
    text[..Shown(text, size, limit)] + TruncationMarker(Shown(text, size, limit), size)
  }

  lemma NeededStep(text: string, size: nat, limit: int, d: nat)
    requires d >= 1
    ensures var k := RoomyHead(text, size, limit, d);
            && DigitsNeeded(text, size, limit, d) ==
               (if |Digits(k)| <= d then d else DigitsNeeded(text, size, limit, d + 1))
            && |Digits(k)| <= |text| + 1 && Itoa(k) == Digits(k)
  {
    hide Digits, RoomyHead;
    DigitsShort(RoomyHead(text, size, limit, d));
  }

  /** The search over digit counts ends and gives the truncated text. */
  method TruncatedStandIn(text: string, size: nat, limit: int) returns (r: string)
    ensures r == TruncatedText(text, size, limit)
  {
    hide Itoa, Digits, DigitsNeeded, TruncationMarker, CutPoint;
    var fixed := |TruncationMarker(0, size)| - 1;
    var d := 1;
    while true
      invariant d >= 1
      invariant DigitsNeeded(text, size, limit, d) == DigitsNeeded(text, size, limit, 1)
      decreases |text| + 2 - d
    {
      var n := limit - fixed - d;
      if |text| < n {
        n := |text|;
      }
      var head := HeadBytes(text, n);
      NeededStep(text, size, limit, d);
      if |Itoa(|head|)| <= d {
        r := head + TruncationMarker(|head|, size);
        return;
      }
      d := d + 1;
    }
  }

  lemma RoomAfterFailure(text: string, size: nat, limit: int, d: nat)
    requires d >= 1 && |Digits(RoomyHead(text, size, limit, d))| > d
    ensures limit - MarkerFixed(size) - (d + 1) >= Pow10(d) - 1 && Pow10(d) - 1 >= d && |text| >= Pow10(d)
  {
    DigitCount(RoomyHead(text, size, limit, d), d);
    Pow10Grows(d, d);
  }

  /** The digit count found leaves at least 10^(d-1)-1 bytes of room, unless it is the first tried. */
  lemma {:induction false} RoomAtNeeded(text: string, size: nat, limit: int, d: nat)
    requires d >= 1
    requires d > 1 ==> limit - MarkerFixed(size) - d >= Pow10(d - 1) - 1 >= d - 1 && |text| >= Pow10(d - 1)
    ensures var r := DigitsNeeded(text, size, limit, d);
            r > 1 ==> limit - MarkerFixed(size) - r >= Pow10(r - 1) - 1 >= r - 1 && |text| >= Pow10(r - 1)
    decreases |text| + 2 - d
  {
    hide MarkerFixed, Digits, RoomyHead, Pow10;
    if |Digits(RoomyHead(text, size, limit, d))| > d {
      RoomAfterFailure(text, size, limit, d);
      DigitsShort(RoomyHead(text, size, limit, d));
      RoomAtNeeded(text, size, limit, d + 1);
    }
  }

  /** A truncated result shows a rune-aligned head and fits the limit, unless the limit is too small for
      the marker, which is then sent alone; and no longer rune-aligned head would fit. */
  lemma TruncatedIsLongest(text: string, size: nat, limit: int)
    ensures Boundary(text, Shown(text, size, limit))
    ensures |TruncatedText(text, size, limit)| <= limit
         || (Shown(text, size, limit) == 0 && limit < |TruncationMarker(0, size)|)
    ensures forall j: nat :: Fits(text, j, size, limit) ==> j <= Shown(text, size, limit)
  {
    hide TruncationMarker;
    var d := DigitsNeeded(text, size, limit, 1);
    var n := Min(|text|, limit - MarkerFixed(size) - d);
    var k := CutPoint(text, n);
    RoomAtNeeded(text, size, limit, 1);
    HeadIsLongest(text, n);
    MarkerLength(k, size);
    MarkerLength(0, size);
    forall j: nat | Fits(text, j, size, limit)
      ensures j <= k
    {
      ShorterFits(text, size, limit, j, d);
    }
  }

  lemma ShorterFits(text: string, size: nat, limit: int, j: nat, d: nat)
    requires Fits(text, j, size, limit) && d == DigitsNeeded(text, size, limit, 1)
    requires d > 1 ==> limit - MarkerFixed(size) - d >= Pow10(d - 1) - 1 && |text| >= Pow10(d - 1)
    ensures j <= RoomyHead(text, size, limit, d)
  {
    hide TruncationMarker, DigitsNeeded;
    MarkerLength(j, size);
    HeadIsLongest(text, Min(|text|, limit - MarkerFixed(size) - d));
    if |Digits(j)| < d {
      DigitCount(j, d - 1);
    }
  }

  /** The outcome of the sink for an oversized result. */
  datatype SinkAnswer = NoSink | Spilled(ref: string) | SinkFailed(err: string)

  function BlocksSize(blocks: seq<Block>): nat {
    if blocks == [] then 0
    else |blocks[0].text| + |blocks[0].data| + |blocks[0].url| + BlocksSize(blocks[1..])
  }
}
