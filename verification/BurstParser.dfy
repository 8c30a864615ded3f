// One line of the burst file: an arrival time, then CPU and I/O bursts in turn, then -1.
module BurstParser {
  import opened Workload
  import opened LinkedQueue

  // ----- The two C library functions the parser is made of -----

  function LeadingSpaces(s: string): (k: nat)
    ensures k <= |s| && (k < |s| ==> s[k] != ' ')
    ensures forall i | 0 <= i < k :: s[i] == ' '
  {
    if s == [] || s[0] != ' ' then 0 else 1 + LeadingSpaces(s[1..])
  }

  function WordLength(s: string): (k: nat)
    ensures k <= |s| && (k < |s| ==> s[k] == ' ')
    ensures forall i | 0 <= i < k :: s[i] != ' '
  {
    if s == [] || s[0] == ' ' then 0 else 1 + WordLength(s[1..])
  }

  datatype Token = Token(word: string, rest: string)

  /** Spaces, then the word, then the end of the string or one more space before the rest. */
  predicate ParsesAs(s: string, margin: nat, word: string, rest: string) {
    && margin + |word| <= |s| && word == s[margin..margin + |word|]
    && (forall i | 0 <= i < margin :: s[i] == ' ')
    && (if margin + |word| == |s| then rest == []
        else s[margin + |word|] == ' ' && rest == s[margin + |word| + 1..])
  }

  /** strtok_r with a space as the delimiter: the next word and where the following call goes on. */
  function NextToken(s: string): (t: Option<Token>)
    ensures t.None? <==> forall i | 0 <= i < |s| :: s[i] == ' '
    ensures t.Some? ==> t.value.word != [] && |t.value.rest| < |s|
    ensures t.Some? ==> ' ' !in t.value.word && ParsesAs(s, LeadingSpaces(s), t.value.word, t.value.rest)
  {
    var tail := s[LeadingSpaces(s)..];
    var n := WordLength(tail);
    if tail == [] then None
    else Some(Token(tail[..n], if n < |tail| then tail[n + 1..] else []))
  }

  predicate IsDigit(c: char) { '0' <= c <= '9' }

  predicate IsSpace(c: char) { c == ' ' || '\t' <= c <= '\r' }

  function DigitsFrom(s: string, value: nat): nat {
    if s == [] || !IsDigit(s[0]) then value
    else DigitsFrom(s[1..], 10 * value + (s[0] as int - '0' as int))
  }

  /** atoi: white space, one optional sign, then as many digits as there are. */
  function Atoi(s: string): int {
    if s == [] then 0
    else if IsSpace(s[0]) then Atoi(s[1..])
    else if s[0] == '-' then 0 - DigitsFrom(s[1..], 0)
    else if s[0] == '+' then DigitsFrom(s[1..], 0)
    else DigitsFrom(s, 0)
  }

  // ----- What atoi computes -----

  predicate AllDigits(s: string) {
    forall i | 0 <= i < |s| :: IsDigit(s[i])
  }

  predicate AllSpace(s: string) {
    forall i | 0 <= i < |s| :: IsSpace(s[i])
  }

  predicate EndsNumber(tail: string) {
    tail == [] || !IsDigit(tail[0])
  }

  function TenTo(n: nat): nat {
    if n == 0 then 1 else 10 * TenTo(n - 1)
  }

  /** What the digit at i stands for. */
  function Place(s: string, i: nat): int
    requires i < |s|
  {
    (s[i] as int - '0' as int) * TenTo(|s| - 1 - i)
  }

  /** The value of the first k places of a numeral, added up. */
  function Places(s: string, k: nat): int
    requires k <= |s|
  {
    if k == 0 then 0 else Places(s, k - 1) + Place(s, k - 1)
  }

  lemma {:induction false} PlacesTail(s: string, k: nat)
    requires 1 <= k <= |s|
    ensures Places(s, k) == Place(s, 0) + Places(s[1..], k - 1)
  {
    if k > 1 {
      PlacesTail(s, k - 1);
      assert Place(s, k - 1) == Place(s[1..], k - 2);
    }
  }

  lemma Carry(value: int, d: int, ten: int)
    ensures (10 * value + d) * ten == value * (10 * ten) + d * ten
  {
  }

  /** Reading digits from the left gives the sum of their places. */
  lemma {:induction false} DigitsAreDecimal(s: string, tail: string, value: nat)
    requires AllDigits(s) && EndsNumber(tail)
    ensures DigitsFrom(s + tail, value) == value * TenTo(|s|) + Places(s, |s|)
  {
    if s == [] {
      assert s + tail == tail;
    } else {
      var d, ten := s[0] as int - '0' as int, TenTo(|s| - 1);
      assert (s + tail)[1..] == s[1..] + tail;
      DigitsAreDecimal(s[1..], tail, 10 * value + d);
      PlacesTail(s, |s|);
      Carry(value, d, ten);
    }
  }

  /** White space, a sign or none, digits and anything that does not go on with a digit: atoi gives
      the decimal value of the digits with that sign. */
  lemma {:induction false} AtoiIsDecimal(space: string, sign: string, digits: string, tail: string)
    requires AllSpace(space) && sign in {"", "+", "-"} && AllDigits(digits) && EndsNumber(tail)
    requires sign == "" && digits == [] && tail != [] ==> !IsSpace(tail[0]) && tail[0] != '+' && tail[0] != '-'
    ensures Atoi(space + sign + digits + tail)
         == if sign == "-" then -Places(digits, |digits|) else Places(digits, |digits|)
    decreases |space|
  {
    var s := space + sign + digits + tail;
    if space != [] {
      assert s[1..] == space[1..] + sign + digits + tail;
      AtoiIsDecimal(space[1..], sign, digits, tail);
    } else {
      DigitsAreDecimal(digits, tail, 0);
      if sign == "" {
        assert s == digits + tail;
      } else {
        assert s[0] == sign[0] && s[1..] == digits + tail;
      }
    }
  }

  // ----- What a line means -----

  /** All numbers of a line. */
  function Numbers(s: string): seq<int>
    decreases |s|
  {
    match NextToken(s)
    case None => []
    case Some(t) => [Atoi(t.word)] + Numbers(t.rest)
  }

  /** The part before the end mark. */
  function UntilMark(v: seq<int>): (r: seq<int>)
    ensures r <= v && -1 !in r
    ensures |r| < |v| ==> v[|r|] == -1
  {
    if v == [] || v[0] == -1 then [] else [v[0]] + UntilMark(v[1..])
  }

  function Evens<T>(v: seq<T>): (r: seq<T>)
    ensures |r| == (|v| + 1) / 2
  {
    seq((|v| + 1) / 2, i requires 0 <= i < (|v| + 1) / 2 => v[2 * i])
  }

  function Odds<T>(v: seq<T>): (r: seq<T>)
    ensures |r| == |v| / 2
  {
    seq(|v| / 2, i requires 0 <= i < |v| / 2 => v[2 * i + 1])
  }

  /** The first number is the arrival time; the numbers before -1 alternate between CPU and I/O. */
  function Parse(s: string): (r: Option<Line>) {
    var v := Numbers(s);
    if v == [] then None
    else
      var bursts := UntilMark(v[1..]);
      Some(Line(v[0], Evens(bursts), Odds(bursts)))
  }

  /** Whatever the line says, the two lists alternate and none of their numbers is -1. */
  lemma ParsedAlternates(s: string)
    ensures Parse(s).Some? ==> Alternating(Parse(s).value) && -1 !in Parse(s).value.cpu && -1 !in Parse(s).value.io
  {
    if Parse(s).Some? {
      var bursts := UntilMark(Numbers(s)[1..]);
      forall i | 0 <= i < |Evens(bursts)| ensures Evens(bursts)[i] != -1 {
        assert bursts[2 * i] in bursts;
      }
      forall i | 0 <= i < |Odds(bursts)| ensures Odds(bursts)[i] != -1 {
        assert bursts[2 * i + 1] in bursts;
      }
    }
  }

  // ----- The parser as the program writes it -----

  /** The record a line is parsed into, blank after calloc. */
  class BurstLine {
    var arrival: int
    var cpuSize: nat
    var ioSize: nat
    var cpu: array<int>
    var io: array<int>

    constructor ()
      ensures Sized() && Value() == Line(0, [], [])
    {
      arrival, cpuSize, ioSize := 0, 0, 0;
      cpu, io := new int[0], new int[0];
    }

    ghost predicate Sized()
      reads this
    {
      cpuSize == cpu.Length && ioSize == io.Length
    }

    ghost function Value(): Line
      reads this, cpu, io
    {
      Line(arrival, cpu[..], io[..])
    }

    /** Copies the filled part of the scratch arrays into arrays of the right size. */
    method Store(time: int, cpuBurst: array<int>, cpuCount: nat, ioBurst: array<int>, ioCount: nat)
      requires cpuCount <= cpuBurst.Length && ioCount <= ioBurst.Length
      modifies this
      ensures Sized() && fresh(cpu) && fresh(io)
      ensures Value() == Line(time, cpuBurst[..cpuCount], ioBurst[..ioCount])
    {
      arrival, cpuSize, ioSize := time, cpuCount, ioCount;
      cpu, io := new int[cpuCount], new int[ioCount];
      var j := 0;
      while j < cpuCount
        invariant 0 <= j <= cpuCount == cpu.Length && cpu[..j] == cpuBurst[..j]
        invariant fresh(cpu) && fresh(io) && io != cpu && io.Length == ioCount
        invariant arrival == time && cpuSize == cpuCount && ioSize == ioCount
      {
        cpu[j] := cpuBurst[j];
        j := j + 1;
      }
      j := 0;
      while j < ioCount
        invariant 0 <= j <= ioCount == io.Length && io[..j] == ioBurst[..j]
        invariant fresh(cpu) && fresh(io) && io != cpu && cpu.Length == cpuCount && cpu[..] == cpuBurst[..cpuCount]
        invariant arrival == time && cpuSize == cpuCount && ioSize == ioCount
      {
        io[j] := ioBurst[j];
        j := j + 1;
      }
    }
  }

  const SCRATCH_SIZE := 1024

  /** The token loop: numbers up to the end mark go to the two scratch arrays in turn. With fewer
      characters than the arrays have entries, neither is ever overrun. */
  method ReadBursts(line: string) returns (cpuBurst: array<int>, cpuCount: nat, ioBurst: array<int>, ioCount: nat)
    requires |line| < SCRATCH_SIZE
    ensures cpuCount <= cpuBurst.Length && cpuBurst[..cpuCount] == Evens(UntilMark(Numbers(line)))
    ensures ioCount <= ioBurst.Length && ioBurst[..ioCount] == Odds(UntilMark(Numbers(line)))
    ensures InTurn(UntilMark(Numbers(line)), cpuBurst[..cpuCount], ioBurst[..ioCount])
  {
    hide UntilMark, Evens, Odds, Atoi, NextToken, Reading, ParsesAs, InTurn;
    cpuBurst, ioBurst := new int[SCRATCH_SIZE], new int[SCRATCH_SIZE];
    var rest, i := line, 0;
    cpuCount, ioCount := 0, 0;
    ghost var done: seq<int> := [];
    ReadFirst(line);
    var token := NextToken(rest);
    while token.Some?
      invariant token == NextToken(rest)
      invariant Reading(line, done, rest)
      invariant i == |done| && i + |rest| <= |line|
      invariant cpuCount == |Evens(done)| && cpuBurst[..cpuCount] == Evens(done)
      invariant ioCount == |Odds(done)| && ioBurst[..ioCount] == Odds(done)
      decreases |rest|
    {
      var number := Atoi(token.value.word);
      ReadNext(line, done, rest);
      if number == -1 {
        break;
      }
      Alternate(done, number);
      if i % 2 == 0 {
        cpuBurst[cpuCount] := number;
        cpuCount := cpuCount + 1;
      } else {
        ioBurst[ioCount] := number;
        ioCount := ioCount + 1;
      }
      done := done + [number];
      rest := token.value.rest;
      i := i + 1;
      token := NextToken(rest);
    }
    ReadNext(line, done, rest);
    HalvesInTurn(done);
  }

  /** The numbers at even places, counted from zero, are the first list, those at odd ones the second. */
  predicate InTurn(v: seq<int>, evens: seq<int>, odds: seq<int>) {
    && |v| == |evens| + |odds| && |odds| <= |evens| <= |odds| + 1
    && (forall i | 0 <= i < |evens| :: v[2 * i] == evens[i])
    && (forall i | 0 <= i < |odds| :: v[2 * i + 1] == odds[i])
  }

  lemma HalvesInTurn(v: seq<int>)
    ensures InTurn(v, Evens(v), Odds(v))
  {
  }

  /** A line without a word, like a missing line or record, changes nothing. */
  method ProcessBurstLine(line: Option<string>, data: BurstLine?)
    requires line.Some? ==> |line.value| < SCRATCH_SIZE
    modifies data
    ensures data != null && line.Some? && Parse(line.value).Some? ==>
              data.Sized() && data.Value() == Parse(line.value).value
    ensures data != null && (line.None? || Parse(line.value).None?) ==> unchanged(data)
  {
    hide Numbers, UntilMark, Evens, Odds, Atoi, NextToken, Parse;
    if line.None? || data == null {
      return;
    }
    ParseOf(line.value);
    var token := NextToken(line.value);
    if token.None? {
      return;
    }
    var time := Atoi(token.value.word);
    var cpuBurst, cpuCount, ioBurst, ioCount := ReadBursts(token.value.rest);
    data.Store(time, cpuBurst, cpuCount, ioBurst, ioCount);
  }

  /** The numbers read so far and those still to come up to the mark are those of the line. */
  predicate Reading(line: string, done: seq<int>, rest: string) {
    UntilMark(Numbers(line)) == done + UntilMark(Numbers(rest))
  }

  lemma ReadFirst(line: string)
    ensures Reading(line, [], line) && Evens<int>([]) == [] && Odds<int>([]) == []
  {
    hide Numbers, UntilMark;
  }

  lemma ReadNext(line: string, done: seq<int>, rest: string)
    requires Reading(line, done, rest)
    ensures NextToken(rest).None? || Atoi(NextToken(rest).value.word) == -1 ==> UntilMark(Numbers(line)) == done
    ensures NextToken(rest).Some? && Atoi(NextToken(rest).value.word) != -1 ==>
              Reading(line, done + [Atoi(NextToken(rest).value.word)], NextToken(rest).value.rest)
  {
    hide Numbers, UntilMark, Atoi, NextToken;
    NumbersNext(rest);
    if NextToken(rest).Some? {
      var t := NextToken(rest).value;
      UntilMarkNext(Atoi(t.word), Numbers(t.rest));
    }
  }

  lemma NumbersNext(s: string)
    ensures NextToken(s).None? ==> Numbers(s) == [] && UntilMark(Numbers(s)) == []
    ensures NextToken(s).Some? ==> var t := NextToken(s).value; Numbers(s) == [Atoi(t.word)] + Numbers(t.rest)
  {
  }

  lemma UntilMarkNext(x: int, v: seq<int>)
    ensures UntilMark([x] + v) == if x == -1 then [] else [x] + UntilMark(v)
  {
    assert ([x] + v)[1..] == v;
  }

  lemma ParseOf(s: string)
    ensures NextToken(s).None? <==> Parse(s).None?
    ensures NextToken(s).Some? ==>
              (var t := NextToken(s).value;
               var bursts := UntilMark(Numbers(t.rest));
               Parse(s) == Some(Line(Atoi(t.word), Evens(bursts), Odds(bursts))))
  {
    hide Atoi, Evens, Odds, UntilMark;
    if NextToken(s).Some? {
      assert Numbers(s)[1..] == Numbers(NextToken(s).value.rest);
    }
  }

  lemma Alternate(v: seq<int>, x: int)
    ensures Evens(v + [x]) == if |v| % 2 == 0 then Evens(v) + [x] else Evens(v)
    ensures Odds(v + [x]) == if |v| % 2 == 0 then Odds(v) else Odds(v) + [x]
  {
  }

  // ----- Round trip -----

  function Digits(n: nat): (s: string)
    ensures s != [] && forall i | 0 <= i < |s| :: IsDigit(s[i])
  {
    var last := ['0' + (n % 10) as char];
    if n < 10 then last else Digits(n / 10) + last
  }

  function Show(n: int): (s: string)
    ensures s != [] && ' ' !in s
  {
    if n < 0 then "-" + Digits(-n) else Digits(n)
  }

  function Gap(n: nat): (s: string)
    ensures |s| == n && forall i | 0 <= i < n :: s[i] == ' '
  {
    seq(n, i => ' ')
  }

  /** The bursts of a line in turn: CPU first. */
  function Weave<T>(cpu: seq<T>, io: seq<T>): (r: seq<T>)
    requires |io| <= |cpu| <= |io| + 1
    ensures |r| == |cpu| + |io|
  {
    seq(|cpu| + |io|, i requires 0 <= i < |cpu| + |io| => if i % 2 == 0 then cpu[i / 2] else io[i / 2])
  }

  lemma WeaveUndone(cpu: seq<int>, io: seq<int>)
    requires |io| <= |cpu| <= |io| + 1
    ensures Evens(Weave(cpu, io)) == cpu && Odds(Weave(cpu, io)) == io
  {
    EvensOfWeave(cpu, io);
    OddsOfWeave(cpu, io);
  }

  lemma EvensOfWeave(cpu: seq<int>, io: seq<int>)
    requires |io| <= |cpu| <= |io| + 1
    ensures Evens(Weave(cpu, io)) == cpu
  {
    var v := Weave(cpu, io);
    assert |Evens(v)| == |cpu|;
    forall i | 0 <= i < |cpu| ensures Evens(v)[i] == cpu[i] {
      assert v[2 * i] == cpu[i];
    }
  }

  lemma OddsOfWeave(cpu: seq<int>, io: seq<int>)
    requires |io| <= |cpu| <= |io| + 1
    ensures Odds(Weave(cpu, io)) == io
  {
    var v := Weave(cpu, io);
    assert |Odds(v)| == |io|;
    forall i | 0 <= i < |io| ensures Odds(v)[i] == io[i] {
      assert v[2 * i + 1] == io[i];
    }
  }

  /** Each burst after a gap of at least one space, then the mark after a last gap, then anything
      that does not lengthen the mark. */
  function RenderBursts(bursts: seq<int>, gaps: seq<nat>, tail: string): string
    requires |gaps| == |bursts| + 1
  {
    if bursts == [] then Gap(gaps[0] + 1) + "-1" + tail
    else Gap(gaps[0] + 1) + Show(bursts[0]) + RenderBursts(bursts[1..], gaps[1..], tail)
  }

  function Render(l: Line, margin: nat, gaps: seq<nat>, tail: string): string
    requires Alternating(l) && |gaps| == |l.cpu| + |l.io| + 1
  {
    Gap(margin) + Show(l.arrival) + RenderBursts(Weave(l.cpu, l.io), gaps, tail)
  }

  lemma {:induction false} DigitsRead(n: nat, tail: string)
    ensures DigitsFrom(Digits(n) + tail, 0) == DigitsFrom(tail, n)
  {
    var c := '0' + (n % 10) as char;
    if n < 10 {
      assert Digits(n) + tail == [c] + tail;
    } else {
      assert Digits(n) + tail == Digits(n / 10) + ([c] + tail);
      DigitsRead(n / 10, [c] + tail);
    }
    assert ([c] + tail)[1..] == tail;
  }

  lemma NumberRead(n: int, tail: string)
    requires EndsNumber(tail)
    ensures Atoi(Show(n) + tail) == n
  {
    if n < 0 {
      DigitsRead(-n, tail);
      ShowNegative(n, tail);
      hide Digits;
    } else {
      DigitsRead(n, tail);
      assert (Digits(n) + tail)[0] == Digits(n)[0];
      hide Digits;
    }
  }

  lemma ShowNegative(n: int, tail: string)
    requires n < 0
    ensures var t := Show(n) + tail; t[0] == '-' && t[1..] == Digits(-n) + tail
  {
    hide Digits;
  }

  lemma {:induction false} SpacesSkipped(k: nat, s: string)
    requires s != [] && s[0] != ' '
    ensures LeadingSpaces(Gap(k) + s) == k && (Gap(k) + s)[k..] == s
  {
    if k > 0 {
      assert (Gap(k) + s)[1..] == Gap(k - 1) + s;
      SpacesSkipped(k - 1, s);
    } else {
      assert Gap(k) + s == s;
    }
  }

  lemma {:induction false} WordRead(word: string, rest: string)
    requires ' ' !in word && (rest == [] || rest[0] == ' ')
    ensures WordLength(word + rest) == |word|
  {
    if word != [] {
      assert (word + rest)[1..] == word[1..] + rest;
      WordRead(word[1..], rest);
    } else {
      assert word + rest == rest;
    }
  }

  /** A word after a gap is the next token. */
  lemma TokenRead(k: nat, word: string, rest: string)
    requires word != [] && ' ' !in word && (rest == [] || rest[0] == ' ')
    ensures NextToken(Gap(k) + word + rest) == Some(Token(word, if rest == [] then [] else rest[1..]))
  {
    var s := word + rest;
    assert Gap(k) + word + rest == Gap(k) + s;
    SpacesSkipped(k, s);
    WordRead(word, rest);
    assert s[..|word|] == word && s[|word|..] == rest;
  }

  lemma NumbersAfterSpace(s: string)
    requires s != [] && s[0] == ' '
    ensures Numbers(s[1..]) == Numbers(s)
  {
    hide WordLength, Atoi;
    assert LeadingSpaces(s) == 1 + LeadingSpaces(s[1..]);
    assert s[1..][LeadingSpaces(s[1..])..] == s[LeadingSpaces(s)..];
    assert NextToken(s[1..]) == NextToken(s);
  }

  /** One number after a gap, and the line goes on. */
  lemma NumberFirst(k: nat, n: int, rest: string)
    requires rest == [] || rest[0] == ' '
    ensures Numbers(Gap(k) + Show(n) + rest) == [n] + Numbers(rest)
  {
    TokenRead(k, Show(n), rest);
    NumberRead(n, []);
    assert Show(n) + [] == Show(n);
    if rest != [] {
      NumbersAfterSpace(rest);
    }
  }

  /** The mark ends the bursts whatever follows it. */
  lemma MarkRead(k: nat, tail: string)
    requires EndsNumber(tail)
    ensures UntilMark(Numbers(Gap(k) + "-1" + tail)) == []
  {
    var n := WordLength(tail);
    var word, rest := "-1" + tail[..n], tail[n..];
    MarkWord(tail, n);
    hide Gap, NextToken, Atoi, WordLength, Numbers;
    MarkSplit(k, tail, n);
    TokenRead(k, word, rest);
    NumbersNext(Gap(k) + word + rest);
  }

  lemma MarkSplit(k: nat, tail: string, n: nat)
    requires n <= |tail|
    ensures Gap(k) + "-1" + tail == Gap(k) + ("-1" + tail[..n]) + tail[n..]
  {
    hide Gap;
  }

  lemma MarkWord(tail: string, n: nat)
    requires EndsNumber(tail) && n == WordLength(tail)
    ensures Atoi("-1" + tail[..n]) == -1 && ' ' !in "-1" + tail[..n]
    ensures tail[n..] == [] || tail[n..][0] == ' '
  {
    assert EndsNumber(tail[..n]);
    assert "-1" == Show(-1);
    NumberRead(-1, tail[..n]);
    hide Atoi, WordLength, Show;
  }

  lemma {:induction false} BurstsRead(bursts: seq<int>, gaps: seq<nat>, tail: string)
    requires |gaps| == |bursts| + 1 && -1 !in bursts && EndsNumber(tail)
    ensures UntilMark(Numbers(RenderBursts(bursts, gaps, tail))) == bursts
    ensures RenderBursts(bursts, gaps, tail)[0] == ' '
  {
    hide Numbers, UntilMark, Show;
    if bursts == [] {
      MarkRead(gaps[0] + 1, tail);
    } else {
      hide Gap;
      var rest := RenderBursts(bursts[1..], gaps[1..], tail);
      BurstsRead(bursts[1..], gaps[1..], tail);
      NumberFirst(gaps[0] + 1, bursts[0], rest);
      UntilMarkNext(bursts[0], Numbers(rest));
    }
  }

  /** Reading back a rendered line gives the line, for any arrival time, any gaps and anything
      after the mark, exactly when no burst looks like the mark. */
  lemma RoundTrip(l: Line, margin: nat, gaps: seq<nat>, tail: string)
    requires Alternating(l) && |gaps| == |l.cpu| + |l.io| + 1 && EndsNumber(tail)
    ensures Parse(Render(l, margin, gaps, tail)) == Some(l) <==> -1 !in l.cpu && -1 !in l.io
  {
    hide Parse, LeadingSpaces, WordLength, Numbers, Show, RenderBursts;
    ParsedAlternates(Render(l, margin, gaps, tail));
    if -1 !in l.cpu && -1 !in l.io {
      LineRead(l, margin, gaps, tail);
    }
  }

  lemma LineRead(l: Line, margin: nat, gaps: seq<nat>, tail: string)
    requires Alternating(l) && |gaps| == |l.cpu| + |l.io| + 1 && EndsNumber(tail)
    requires -1 !in l.cpu && -1 !in l.io
    ensures Parse(Render(l, margin, gaps, tail)) == Some(l)
  {
    var bursts := Weave(l.cpu, l.io);
    WeaveUndone(l.cpu, l.io);
    BurstsRead(bursts, gaps, tail);
    NumberFirst(margin, l.arrival, RenderBursts(bursts, gaps, tail));
  }

  // ----- A line of the test data, character by character -----

  const DATA_LINE := "28 25 2 10 -1"

  lemma ShownInDecimal()
    ensures Show(2) == "2" && Show(10) == "10" && Show(25) == "25" && Show(28) == "28"
  {
    assert Digits(1) == "1" && Digits(2) == "2";
  }

  function Zeros(n: nat): (r: seq<nat>)
    ensures |r| == n
  {
    seq(n, i => 0)
  }

  lemma SpacedOnce(b: int, bursts: seq<int>)
    ensures RenderBursts([b] + bursts, Zeros(|bursts| + 2), "")
         == " " + Show(b) + RenderBursts(bursts, Zeros(|bursts| + 1), "")
  {
    hide Show, Gap, RenderBursts, Zeros;
    var all, gaps := [b] + bursts, Zeros(|bursts| + 2);
    ZerosTail(|bursts| + 1);
    assert all[1..] == bursts && all[0] == b;
    RenderNext(all, gaps);
    OneSpace();
  }

  lemma RenderNext(bursts: seq<int>, gaps: seq<nat>)
    requires |gaps| == |bursts| + 1 && bursts != []
    ensures RenderBursts(bursts, gaps, "")
         == Gap(gaps[0] + 1) + Show(bursts[0]) + RenderBursts(bursts[1..], gaps[1..], "")
  {
    hide Show, Gap;
  }

  lemma ZerosTail(n: nat)
    ensures Zeros(n + 1)[0] == 0 && Zeros(n + 1)[1..] == Zeros(n)
  {
  }

  lemma OneSpace()
    ensures Gap(1) == " "
  {
  }

  lemma SpacedMark()
    ensures RenderBursts([], Zeros(1), "") == " -1"
  {
    OneSpace();
  }

  lemma DataLineRendered()
    ensures Render(Line(28, [25, 10], [2]), 0, Zeros(4), "") == DATA_LINE
  {
    hide Show, RenderBursts, Zeros;
    ShownInDecimal();
    SpacedMark();
    SpacedOnce(10, []);
    SpacedOnce(2, [10]);
    SpacedOnce(25, [2, 10]);
    assert [10] + [] == [10] && [2] + [10] == [2, 10] && [25] + [2, 10] == [25, 2, 10];
    assert Weave([25, 10], [2]) == [25, 2, 10];
    assert RenderBursts([2, 10], Zeros(3), "") == " 2 10 -1";
  }

  /** Arrival 28, and bursts of 25 and 10 ticks around I/O of 2. */
  lemma DataLineParsed()
    ensures Parse(DATA_LINE) == Some(Line(28, [25, 10], [2]))
  {
    hide Show, RenderBursts, Parse, Render;
    DataLineRendered();
    LineRead(Line(28, [25, 10], [2]), 0, Zeros(4), "");
  }
}
