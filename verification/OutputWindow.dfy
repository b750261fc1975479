/** Bounding a text, as UTF-8 bytes, to a window of whole lines at its head or tail. */
module OutputWindow {
  type Byte = x: int | 0 <= x < 256

  const NEWLINE: Byte := 0x0a

  datatype Retain = Head | Tail
  datatype Limits = Limits(maxBytes: nat, maxLines: nat, retain: Retain)
  datatype Slice = Slice(text: seq<Byte>, droppedBytes: int, droppedLines: int)

  /** A byte that does not start a character: its two top bits are `10`. */
  predicate Continuation(x: Byte) {
    0x80 <= x < 0xc0
  }

  predicate Boundary(b: seq<Byte>, i: nat) {
    i >= |b| || !Continuation(b[i])
  }

  function Newlines(b: seq<Byte>): nat
    decreases |b|
  {
    if b == [] then 0 else (if b[0] == NEWLINE then 1 else 0) + Newlines(b[1..])
  }

  predicate Terminated(b: seq<Byte>) {
    b == [] || b[|b| - 1] == NEWLINE
  }

  /** A final line without a newline counts. */
  function LineCount(b: seq<Byte>): nat {
    Newlines(b) + if Terminated(b) then 0 else 1
  }

  // ---------------------------------------------------------------- what a window is

  /** A line starts at `i`. */
  predicate LineStart(b: seq<Byte>, i: nat) {
    i == 0 || (i <= |b| && b[i - 1] == NEWLINE)
  }

  predicate Within(b: seq<Byte>, limits: Limits) {
    |b| <= limits.maxBytes && LineCount(b) <= limits.maxLines
  }

  /** `b[..e]` is a run of whole lines within both limits. */
  predicate HeadLines(b: seq<Byte>, limits: Limits, e: nat) {
    0 < e <= |b| && (e == |b| || LineStart(b, e)) && Within(b[..e], limits)
  }

  predicate TailLines(b: seq<Byte>, limits: Limits, s: nat) {
    s < |b| && LineStart(b, s) && Within(b[s..], limits)
  }

  predicate HeadCut(b: seq<Byte>, limits: Limits, e: nat) {
    e <= |b| && e <= limits.maxBytes && Boundary(b, e)
  }

  predicate TailCut(b: seq<Byte>, limits: Limits, s: nat) {
    s <= |b| && |b| - s <= limits.maxBytes && Boundary(b, s)
  }

  /** The longest run of whole first lines, or, when the first line alone is too long, its longest cut. */
  ghost predicate HeadWindow(b: seq<Byte>, limits: Limits, e: nat) {
    if limits.maxLines == 0 || limits.maxBytes == 0 then e == 0
    else if exists x: nat :: HeadLines(b, limits, x) then
      HeadLines(b, limits, e) && forall x: nat :: HeadLines(b, limits, x) ==> x <= e
    else
      HeadCut(b, limits, e) && forall x: nat :: HeadCut(b, limits, x) ==> x <= e
  }

  /** The longest run of whole last lines, or, when the last line alone is too long, its longest cut. */
  ghost predicate TailWindow(b: seq<Byte>, limits: Limits, s: nat) {
    if limits.maxLines == 0 || limits.maxBytes == 0 then s == |b|
    else if exists x: nat :: TailLines(b, limits, x) then
      TailLines(b, limits, s) && forall x: nat :: TailLines(b, limits, x) ==> s <= x
    else
      TailCut(b, limits, s) && forall x: nat :: TailCut(b, limits, x) ==> s <= x
  }

  ghost predicate Window(b: seq<Byte>, limits: Limits, from: nat, to: nat) {
    if limits.retain.Head? then from == 0 && HeadWindow(b, limits, to) else to == |b| && TailWindow(b, limits, from)
  }

  lemma WindowUnique(b: seq<Byte>, limits: Limits, from: nat, to: nat, from': nat, to': nat)
    requires Window(b, limits, from, to) && Window(b, limits, from', to')
    ensures from == from' && to == to'
  {
  }

  // ---------------------------------------------------------------- counting

  lemma {:induction false} NewlinesConcat(a: seq<Byte>, b: seq<Byte>)
    ensures Newlines(a + b) == Newlines(a) + Newlines(b)
    decreases |a|
  {
    if a == [] {
      assert a + b == b;
    } else {
      assert (a + b)[0] == a[0] && (a + b)[1..] == a[1..] + b;
      NewlinesConcat(a[1..], b);
    }
  }

  lemma {:induction false} NewlinesNone(b: seq<Byte>)
    requires NEWLINE !in b
    ensures Newlines(b) == 0
    decreases |b|
  {
    if b != [] { NewlinesNone(b[1..]); }
  }

  lemma NewlinesSplit(b: seq<Byte>, i: nat, j: nat)
    requires i <= j <= |b|
    ensures Newlines(b[i..]) == Newlines(b[i..j]) + Newlines(b[j..])
    ensures Newlines(b[..j]) == Newlines(b[..i]) + Newlines(b[i..j])
  {
    NewlinesConcat(b[i..j], b[j..]);
    assert b[i..j] + b[j..] == b[i..];
    NewlinesConcat(b[..i], b[i..j]);
    assert b[..i] + b[i..j] == b[..j];
  }

  lemma Absent(b: seq<Byte>, i: nat, j: nat)
    requires i <= j <= |b| && NEWLINE !in b[i..j]
    ensures forall x :: i <= x < j ==> b[x] != NEWLINE
  {
    forall x | i <= x < j ensures b[x] != NEWLINE { assert b[i..j][x - i] == b[x]; }
  }

  lemma OneNewline()
    ensures Newlines([NEWLINE]) == 1
  {
    assert [NEWLINE][1..] == [];
  }

  /** A stretch up to the next newline has that one newline. */
  lemma NewlinesTo(b: seq<Byte>, i: nat, j: nat)
    requires i <= j < |b| && b[j] == NEWLINE && NEWLINE !in b[i..j]
    ensures Newlines(b[i..j + 1]) == 1
  {
    assert b[i..j + 1] == b[i..j] + [NEWLINE];
    NewlinesNone(b[i..j]);
    OneNewline();
    NewlinesConcat(b[i..j], [NEWLINE]);
  }

  // ---------------------------------------------------------------- scanning

  /** The first `x` at or after `from`; -1: none. */
  method IndexOf(b: seq<Byte>, x: Byte, from: nat) returns (i: int)
    ensures i == -1 || from <= i < |b|
    ensures i == -1 ==> from >= |b| || x !in b[from..]
    ensures i != -1 ==> b[i] == x && x !in b[from..i]
  {
    i := from;
    while i < |b|
      invariant from <= i && (from <= |b| ==> i <= |b| && x !in b[from..i])
    {
      if b[i] == x { return; }
      assert b[from..i + 1] == b[from..i] + [b[i]];
      i := i + 1;
    }
    i := -1;
  }

  lemma NotInside(b: seq<Byte>, x: Byte, from: nat, to: nat)
    requires from <= to <= |b| && forall k :: from <= k < to ==> b[k] != x
    ensures x !in b[from..to]
  {
  }

  /** The last `x` at or before `from`; -1: none. */
  method LastIndexOf(b: seq<Byte>, x: Byte, from: nat) returns (i: int)
    requires from < |b|
    ensures -1 <= i <= from
    ensures x !in b[i + 1..from + 1]
    ensures i != -1 ==> b[i] == x
  {
    i := from;
    while i >= 0
      invariant -1 <= i <= from && forall k :: i < k <= from ==> b[k] != x
    {
      if b[i] == x { break; }
      i := i - 1;
    }
    NotInside(b, x, i + 1, from + 1);
  }

  /** Steps back from `index` over continuation bytes. */
  method CharacterEnd(b: seq<Byte>, index: nat) returns (end: nat)
    ensures end <= index && (end == 0 || Boundary(b, end))
    ensures forall x :: end < x <= index ==> !Boundary(b, x)
  {
    end := index;
    while end > 0 && end < |b| && Continuation(b[end])
      invariant end <= index && forall x :: end < x <= index ==> !Boundary(b, x)
    {
      end := end - 1;
    }
  }

  /** Steps forward from `index` over continuation bytes. */
  method CharacterStart(b: seq<Byte>, index: nat) returns (start: nat)
    requires index <= |b|
    ensures index <= start <= |b| && Boundary(b, start)
    ensures forall x :: index <= x < start ==> !Boundary(b, x)
  {
    start := index;
    while start < |b| && Continuation(b[start])
      invariant index <= start <= |b| && forall x :: index <= x < start ==> !Boundary(b, x)
    {
      start := start + 1;
    }
  }

  method CountLines(b: seq<Byte>) returns (count: nat)
    ensures count == LineCount(b)
  {
    if |b| == 0 { return 0; }
    var newlines := CountNewlines(b);
    count := newlines + if b[|b| - 1] == NEWLINE then 0 else 1;
  }

  method CountNewlines(b: seq<Byte>) returns (count: nat)
    ensures count == Newlines(b)
  {
    count := 0;
    var from := 0;
    var index := IndexOf(b, NEWLINE, 0);
    while index != -1
      invariant 0 <= from <= |b| && count == Newlines(b[..from])
      invariant index == -1 || from <= index < |b|
      invariant index == -1 ==> NEWLINE !in b[from..]
      invariant index != -1 ==> b[index] == NEWLINE && NEWLINE !in b[from..index]
      decreases |b| - from
    {
      NewlinesTo(b, from, index);
      NewlinesSplit(b, from, index + 1);
      count := count + 1;
      from := index + 1;
      index := IndexOf(b, NEWLINE, from);
    }
    NewlinesNone(b[from..]);
    NewlinesConcat(b[..from], b[from..]);
    assert b[..from] + b[from..] == b;
  }

  // ---------------------------------------------------------------- the head

  /** `end` is where the first `maxLines` lines end. */
  ghost predicate HeadByLines(b: seq<Byte>, maxLines: nat, end: nat) {
    && end <= |b| && (end == |b| || LineStart(b, end))
    && LineCount(b[..end]) <= maxLines
    && forall x :: end < x <= |b| ==> LineCount(b[..x]) > maxLines
  }

  method FirstLines(b: seq<Byte>, maxLines: nat) returns (end: nat)
    requires maxLines > 0
    ensures HeadByLines(b, maxLines, end)
  {
    var lines, from := 0, 0;
    var index := IndexOf(b, NEWLINE, 0);
    while index != -1
      invariant 0 <= from <= |b| && lines == Newlines(b[..from]) < maxLines
      invariant index == -1 || from <= index < |b|
      invariant index == -1 ==> NEWLINE !in b[from..]
      invariant index != -1 ==> b[index] == NEWLINE && NEWLINE !in b[from..index]
      decreases |b| - from
    {
      NewlinesTo(b, from, index);
      NewlinesSplit(b, from, index + 1);
      lines := lines + 1;
      from := index + 1;
      if lines == maxLines {
        AfterLastLine(b, from);
        return from;
      }
      index := IndexOf(b, NEWLINE, from);
    }
    AllLines(b, from);
    return |b|;
  }

  lemma AllLines(b: seq<Byte>, from: nat)
    requires from <= |b| && NEWLINE !in b[from..]
    ensures b[..|b|] == b && LineCount(b) <= Newlines(b[..from]) + 1
  {
    NewlinesNone(b[from..]);
    NewlinesConcat(b[..from], b[from..]);
    assert b[..from] + b[from..] == b;
  }

  lemma AfterLastLine(b: seq<Byte>, end: nat)
    requires 0 < end <= |b| && b[end - 1] == NEWLINE
    ensures LineCount(b[..end]) == Newlines(b[..end])
    ensures forall x :: end < x <= |b| ==> LineCount(b[..x]) > Newlines(b[..end])
  {
    forall x | end < x <= |b| ensures LineCount(b[..x]) > Newlines(b[..end]) {
      NewlinesSplit(b, end, x);
      assert b[end..x] != [];
      if Terminated(b[..x]) {
        assert b[end..x] == b[end..x - 1] + [b[x - 1]];
        NewlinesConcat(b[end..x - 1], [NEWLINE]);
        OneNewline();
      }
    }
  }

  method HeadRange(b: seq<Byte>, limits: Limits) returns (end: nat)
    requires Boundary(b, 0)
    ensures HeadWindow(b, limits, end) && end <= |b|
  {
    if limits.maxLines == 0 || limits.maxBytes == 0 { return 0; }
    var whole := FirstLines(b, limits.maxLines);
    end := whole;
    if end > limits.maxBytes {
      var newline := LastIndexOf(b, NEWLINE, limits.maxBytes - 1);
      if newline == -1 {
        end := CharacterEnd(b, limits.maxBytes);
        HeadIsCut(b, limits, whole, end);
      } else {
        end := newline + 1;
        HeadIsLines(b, limits, whole, end);
      }
    } else {
      HeadIsLines(b, limits, whole, end);
    }
  }

  /** No newline fits: the cut is the window. */
  lemma HeadIsCut(b: seq<Byte>, limits: Limits, whole: nat, end: nat)
    requires limits.maxLines > 0 && 0 < limits.maxBytes < whole && HeadByLines(b, limits.maxLines, whole)
    requires NEWLINE !in b[..limits.maxBytes]
    requires end <= limits.maxBytes && (end == 0 || Boundary(b, end))
    requires forall x :: end < x <= limits.maxBytes ==> !Boundary(b, x)
    requires Boundary(b, 0)
    ensures HeadWindow(b, limits, end)
  {
    assert b[0..limits.maxBytes] == b[..limits.maxBytes];
    Absent(b, 0, limits.maxBytes);
  }

  lemma FewerLines(b: seq<Byte>, end: nat, whole: nat)
    requires 0 < end <= whole <= |b| && (end == whole || b[end - 1] == NEWLINE)
    ensures LineCount(b[..end]) <= LineCount(b[..whole])
  {
    NewlinesSplit(b, end, whole);
  }

  /** `end` is the last line end at or before both limits. */
  lemma HeadIsLines(b: seq<Byte>, limits: Limits, whole: nat, end: nat)
    requires limits.maxLines > 0 && limits.maxBytes > 0 && HeadByLines(b, limits.maxLines, whole)
    requires Boundary(b, 0) && end <= whole && end <= limits.maxBytes
    requires if whole <= limits.maxBytes then end == whole
             else 0 < end && b[end - 1] == NEWLINE && NEWLINE !in b[end..limits.maxBytes]
    ensures HeadWindow(b, limits, end)
  {
    if b != [] {
      FirstLineFits(b, limits.maxLines, whole);
      FewerLines(b, end, whole);
      assert HeadLines(b, limits, end);
      if whole > limits.maxBytes { Absent(b, end, limits.maxBytes); }
    }
  }

  lemma FirstLineFits(b: seq<Byte>, maxLines: nat, whole: nat)
    requires b != [] && maxLines > 0 && HeadByLines(b, maxLines, whole)
    ensures whole > 0
  {
    assert b[..1] == [b[0]] && [b[0]][1..] == [];
    assert Newlines([b[0]][1..]) == 0;
  }

  // ---------------------------------------------------------------- the tail

  /** `start` is where the last `maxLines` lines start. */
  ghost predicate TailByLines(b: seq<Byte>, maxLines: nat, start: nat) {
    && start < |b| && LineStart(b, start)
    && LineCount(b[start..]) <= maxLines
    && forall x :: 0 <= x < start && LineStart(b, x) ==> LineCount(b[x..]) > maxLines
  }

  /** Where the text ends but for a trailing newline. */
  function Unterminated(b: seq<Byte>): nat
    requires b != []
  {
    if b[|b| - 1] == NEWLINE then |b| - 1 else |b|
  }

  /** The lines from `x` on: one more than the newlines between them. */
  lemma LinesFrom(b: seq<Byte>, x: nat)
    requires x < |b|
    ensures x <= Unterminated(b) && LineCount(b[x..]) == Newlines(b[x..Unterminated(b)]) + 1
  {
    var end := Unterminated(b);
    NewlinesSplit(b, x, end);
    assert b[x..][|b[x..]| - 1] == b[|b| - 1];
    if end < |b| {
      assert b[end..] == [NEWLINE];
      OneNewline();
    } else {
      assert b[end..] == [];
    }
  }

  lemma EarlierLines(b: seq<Byte>, index: nat)
    requires b != [] && index < Unterminated(b) && b[index] == NEWLINE
    ensures forall x :: 0 <= x <= index ==> LineCount(b[x..]) > LineCount(b[index + 1..])
    ensures index + 1 < |b| && LineStart(b, index + 1)
  {
    assert index + 1 < |b| by { if b[|b| - 1] != NEWLINE { assert b[index] != b[|b| - 1]; } }
    forall x | 0 <= x <= index ensures LineCount(b[x..]) > LineCount(b[index + 1..]) {
      LinesFrom(b, x);
      LinesFrom(b, index + 1);
      var end := Unterminated(b);
      NewlinesConcat(b[x..index], b[index..end]);
      assert b[x..index] + b[index..end] == b[x..end];
      assert b[index..end][1..] == b[index + 1..end];
    }
  }

  method LastLines(b: seq<Byte>, maxLines: nat) returns (start: nat)
    requires maxLines > 0 && b != []
    ensures TailByLines(b, maxLines, start)
  {
    // The search for line ends starts before a final newline, which starts no line.
    var last := if b[|b| - 1] == NEWLINE then |b| - 2 else |b| - 1;
    var lines := 1;
    ghost var hi := last + 1;
    var index := -1;
    if last >= 0 { index := LastIndexOf(b, NEWLINE, last); }
    NothingScanned(b);
    while index != -1
      invariant Scanned(b, hi, index, lines) && lines <= maxLines
      decreases hi
    {
      LineBefore(b, index, hi, lines);
      if lines == maxLines { return index + 1; }
      lines := lines + 1;
      hi := index;
      if index == 0 { index := -1; } else { index := LastIndexOf(b, NEWLINE, index - 1); }
    }
    NoneBefore(b, hi, lines, maxLines);
    return 0;
  }

  /** From `hi` on there are `lines` lines (without a trailing newline); the newline before it is at `index`, if any. */
  ghost predicate Scanned(b: seq<Byte>, hi: int, index: int, lines: int) {
    && b != [] && -1 <= index < hi <= Unterminated(b)
    && lines == Newlines(b[hi..Unterminated(b)]) + 1
    && NEWLINE !in b[index + 1..hi] && (index != -1 ==> b[index] == NEWLINE)
  }

  lemma NothingScanned(b: seq<Byte>)
    requires b != []
    ensures Newlines(b[Unterminated(b)..Unterminated(b)]) == 0
  {
  }

  lemma NoneBefore(b: seq<Byte>, hi: nat, lines: nat, maxLines: nat)
    requires b != [] && hi <= Unterminated(b) && NEWLINE !in b[0..hi]
    requires lines == Newlines(b[hi..Unterminated(b)]) + 1 && lines <= maxLines
    ensures TailByLines(b, maxLines, 0)
  {
    NoLineBefore(b, 0, hi, Unterminated(b));
    LinesFrom(b, 0);
  }

  /** At a newline before the lines found so far, they are all lines from there on, and every earlier start has more. */
  lemma LineBefore(b: seq<Byte>, index: nat, hi: nat, lines: nat)
    requires b != [] && index < hi <= Unterminated(b) && b[index] == NEWLINE && NEWLINE !in b[index + 1..hi]
    requires lines == Newlines(b[hi..Unterminated(b)]) + 1
    ensures TailByLines(b, lines, index + 1)
    ensures Newlines(b[index..Unterminated(b)]) == lines
  {
    var end := Unterminated(b);
    NoLineBefore(b, index + 1, hi, end);
    EarlierLines(b, index);
    LinesFrom(b, index + 1);
    assert b[index..end][1..] == b[index + 1..end];
  }

  lemma NoLineBefore(b: seq<Byte>, i: nat, hi: nat, end: nat)
    requires i <= hi <= end <= |b| && NEWLINE !in b[i..hi]
    ensures Newlines(b[i..end]) == Newlines(b[hi..end])
  {
    NewlinesNone(b[i..hi]);
    NewlinesConcat(b[i..hi], b[hi..end]);
    assert b[i..hi] + b[hi..end] == b[i..end];
  }

  method TailRange(b: seq<Byte>, limits: Limits) returns (start: nat)
    requires Boundary(b, 0)
    ensures TailWindow(b, limits, start) && start <= |b|
  {
    if limits.maxLines == 0 || limits.maxBytes == 0 { return |b|; }
    if |b| == 0 { return 0; }
    var whole := LastLines(b, limits.maxLines);
    start := whole;
    if |b| - start > limits.maxBytes {
      var from := |b| - limits.maxBytes;
      var newline := IndexOf(b, NEWLINE, from - 1);
      // Without a line start to begin at, the end of the last line is cut at a character.
      if newline != -1 && newline + 1 < |b| {
        start := newline + 1;
        TailIsLines(b, limits, whole, start);
      } else {
        start := CharacterStart(b, from);
        TailIsCut(b, limits, from, start);
      }
    } else {
      TailIsLines(b, limits, whole, start);
    }
  }

  lemma FewerLastLines(b: seq<Byte>, whole: nat, start: nat)
    requires whole <= start < |b|
    ensures LineCount(b[start..]) <= LineCount(b[whole..])
  {
    LinesFrom(b, whole);
    LinesFrom(b, start);
    NewlinesConcat(b[whole..start], b[start..Unterminated(b)]);
    assert b[whole..start] + b[start..Unterminated(b)] == b[whole..Unterminated(b)];
  }

  lemma TailIsLines(b: seq<Byte>, limits: Limits, whole: nat, start: nat)
    requires limits.maxLines > 0 && limits.maxBytes > 0 && TailByLines(b, limits.maxLines, whole)
    requires whole <= start < |b|
    requires if |b| - whole <= limits.maxBytes then start == whole
             else var from := |b| - limits.maxBytes;
                  from <= start && b[start - 1] == NEWLINE && NEWLINE !in b[from - 1..start - 1]
    ensures TailWindow(b, limits, start)
  {
    FewerLastLines(b, whole, start);
    assert TailLines(b, limits, start);
    if |b| - whole > limits.maxBytes { Absent(b, |b| - limits.maxBytes - 1, start - 1); }
  }

  lemma TailIsCut(b: seq<Byte>, limits: Limits, from: nat, start: nat)
    requires limits.maxLines > 0 && 0 < limits.maxBytes < |b| && from == |b| - limits.maxBytes
    requires NEWLINE !in b[from - 1..|b| - 1]
    requires from <= start <= |b| && Boundary(b, start)
    requires forall x :: from <= x < start ==> !Boundary(b, x)
    ensures TailWindow(b, limits, start)
  {
    Absent(b, from - 1, |b| - 1);
  }

  // ---------------------------------------------------------------- bounding a whole text

  ghost predicate IsSlice(b: seq<Byte>, from: nat, to: nat, slice: Slice) {
    from <= to <= |b|
    && slice == Slice(b[from..to], |b| - (to - from), LineCount(b) - LineCount(b[from..to]))
  }

  /** What the limits keep of `b`, and how much they drop. */
  ghost predicate Bounded(b: seq<Byte>, limits: Limits, slice: Slice) {
    exists from: nat, to: nat :: Window(b, limits, from, to) && IsSlice(b, from, to, slice)
  }

  lemma BoundedUnique(b: seq<Byte>, limits: Limits, x: Slice, y: Slice)
    requires Bounded(b, limits, x) && Bounded(b, limits, y)
    ensures x == y
  {
    hide LineCount;
    var from: nat, to: nat :| Window(b, limits, from, to) && IsSlice(b, from, to, x);
    var from': nat, to': nat :| Window(b, limits, from', to') && IsSlice(b, from', to', y);
    hide HeadWindow, TailWindow;
    WindowUnique(b, limits, from, to, from', to');
  }

  method BoundOutput(b: seq<Byte>, limits: Limits) returns (slice: Slice)
    requires Boundary(b, 0)
    ensures Bounded(b, limits, slice)
  {
    var from, to := 0, |b|;
    if limits.retain.Head? {
      to := HeadRange(b, limits);
    } else {
      from := TailRange(b, limits);
    }
    var all: int := CountLines(b);
    var kept: int := CountLines(b[from..to]);
    slice := Slice(b[from..to], |b| - (to - from), all - kept);
    assert Window(b, limits, from, to) && IsSlice(b, from, to, slice);
  }

  /** What is kept is within both limits, starts and ends on characters, and with the dropped counts gives the whole. */
  lemma BoundedWithin(b: seq<Byte>, limits: Limits, slice: Slice)
    requires Boundary(b, 0) && Bounded(b, limits, slice)
    ensures |slice.text| <= limits.maxBytes && LineCount(slice.text) <= limits.maxLines
    ensures |slice.text| + slice.droppedBytes == |b| && LineCount(slice.text) + slice.droppedLines == LineCount(b)
    ensures if limits.retain.Head? then slice.text <= b else exists s: nat :: s <= |b| && slice.text == b[s..]
  {
    var from: nat, to: nat :| Window(b, limits, from, to) && IsSlice(b, from, to, slice);
    assert b[from..|b|] == b[from..] && b[0..to] == b[..to];
    if limits.retain.Head? { HeadWithin(b, limits, to); } else { TailWithin(b, limits, from); }
  }

  lemma HeadWithin(b: seq<Byte>, limits: Limits, to: nat)
    requires HeadWindow(b, limits, to) && Boundary(b, 0)
    ensures to <= |b| && Within(b[..to], limits)
  {
    if limits.maxLines > 0 && limits.maxBytes > 0 {
      if NEWLINE in b {
        if i :| 0 <= i < to && b[i] == NEWLINE && i < limits.maxBytes { FirstLineStands(b, limits, i); }
      }
      if !exists x: nat :: HeadLines(b, limits, x) { NewlinesNone(b[..to]); }
    }
  }

  lemma TailWithin(b: seq<Byte>, limits: Limits, from: nat)
    requires TailWindow(b, limits, from) && Boundary(b, 0)
    ensures from <= |b| && Within(b[from..], limits)
  {
    if limits.maxLines > 0 && limits.maxBytes > 0 && from < |b| {
      if i :| from <= i < |b| - 1 && b[i] == NEWLINE { LastLineStands(b, limits, i); }
      if !exists x: nat :: TailLines(b, limits, x) {
        LinesFrom(b, from);
        NewlinesNone(b[from..Unterminated(b)]);
      }
    }
  }

  lemma {:induction false} FirstLineStands(b: seq<Byte>, limits: Limits, i: nat)
    requires i < |b| && i < limits.maxBytes && limits.maxLines > 0 && b[i] == NEWLINE
    ensures exists x: nat :: HeadLines(b, limits, x)
  {
    if j :| 0 <= j < i && b[j] == NEWLINE {
      FirstLineStands(b, limits, j);
    } else {
      assert NEWLINE !in b[0..i];
      NewlinesTo(b, 0, i);
      assert HeadLines(b, limits, i + 1);
    }
  }

  lemma {:induction false} LastLineStands(b: seq<Byte>, limits: Limits, i: nat)
    requires i < |b| - 1 && |b| - i <= limits.maxBytes + 1 && limits.maxLines > 0 && b[i] == NEWLINE
    ensures exists x: nat :: TailLines(b, limits, x)
    decreases |b| - i
  {
    if j :| i < j < |b| - 1 && b[j] == NEWLINE {
      LastLineStands(b, limits, j);
    } else {
      LinesFrom(b, i + 1);
      assert NEWLINE !in b[i + 1..Unterminated(b)];
      NewlinesNone(b[i + 1..Unterminated(b)]);
      assert TailLines(b, limits, i + 1);
    }
  }
}
