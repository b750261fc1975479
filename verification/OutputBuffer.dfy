/**
 A running output kept as a bounded window of chunks.  Whatever was pushed, skipped and looked at before, what
 it shows is the bound of the whole stream.
 */
module OutputBuffering {
  import opened OutputWindow
  import opened Wrappers

  datatype Chunk = Chunk(text: seq<Byte>, bytes: nat, newlines: nat)

  /** Counts of a stretch of the stream that never reaches the buffer. */
  datatype Skip = Skip(bytes: nat, newlines: nat, endsWithNewline: bool)

  datatype BoundedOutput = BoundedOutput(text: seq<Byte>, droppedBytes: int, droppedLines: int)

  predicate Control(x: Byte) {
    x <= 0x08 || 0x0b <= x <= 0x1f
  }

  /** The UTF-8 form of U+FFF9 to U+FFFB. */
  predicate Annotation(b: seq<Byte>) {
    |b| >= 3 && b[0] == 0xef && b[1] == 0xbf && 0xb9 <= b[2] <= 0xbb
  }

  function Sanitize(b: seq<Byte>): seq<Byte>
    decreases |b|
  {
    if b == [] then []
    else if Control(b[0]) then Sanitize(b[1..])
    else if Annotation(b) then Sanitize(b[3..])
    else [b[0]] + Sanitize(b[1..])
  }

  function Joined(chunks: seq<Chunk>): seq<Byte>
    decreases |chunks|
  {
    if chunks == [] then [] else chunks[0].text + Joined(chunks[1..])
  }

  lemma {:induction false} JoinedAppend(chunks: seq<Chunk>, c: Chunk)
    ensures Joined(chunks + [c]) == Joined(chunks) + c.text
    decreases |chunks|
  {
    if chunks == [] {
      assert ([] + [c])[1..] == [];
    } else {
      assert (chunks + [c])[0] == chunks[0] && (chunks + [c])[1..] == chunks[1..] + [c];
      JoinedAppend(chunks[1..], c);
    }
  }

  // ---------------------------------------------------------------- what must be stored

  predicate Exceeds(b: seq<Byte>, limits: Limits) {
    |b| > limits.maxBytes || Newlines(b) > limits.maxLines
  }

  /** `t` ends the stream and reaches further back than any window. */
  predicate TailStored(s: seq<Byte>, t: seq<Byte>, limits: Limits) {
    |t| <= |s| && t == s[|s| - |t|..] && (t == s || Exceeds(t, limits))
  }

  /** `t` starts the stream and holds all a head window can need. */
  predicate HeadStored(s: seq<Byte>, t: seq<Byte>, limits: Limits) {
    t <= s && (t == s || |t| > limits.maxBytes || Newlines(t) >= limits.maxLines)
  }

  lemma TailShift(s: seq<Byte>, t: seq<Byte>, limits: Limits, x: nat)
    requires TailStored(s, t, limits) && t != s && x <= |t|
    ensures TailLines(t, limits, x) <==> TailLines(s, limits, |s| - |t| + x)
  {
    var p := |s| - |t|;
    assert t[x..] == s[p + x..];
    if x == 0 {
      assert t[0..] == t;
    } else {
      assert t[x - 1] == s[p + x - 1];
    }
  }

  lemma NoLongerTail(s: seq<Byte>, t: seq<Byte>, limits: Limits, y: nat)
    requires TailStored(s, t, limits) && t != s && y < |s| - |t|
    ensures !Within(s[y..], limits)
  {
    var p := |s| - |t|;
    NewlinesSplit(s, y, p);
  }

  /** More than `maxLines` newlines, and one line is within the limits. */
  lemma {:induction false} TwoLinesStand(t: seq<Byte>, limits: Limits)
    requires limits.maxLines > 0 && Newlines(t) > limits.maxLines && |t| <= limits.maxBytes
    ensures exists x: nat :: TailLines(t, limits, x)
  {
    var front := t[..|t| - 1];
    assert t == front + [t[|t| - 1]];
    NewlinesConcat(front, [t[|t| - 1]]);
    assert Newlines([t[|t| - 1]][1..]) == 0;
    if NEWLINE !in front { NewlinesNone(front); }
    var i :| 0 <= i < |front| && front[i] == NEWLINE;
    LastLineStands(t, limits, i);
  }

  /** For the tail window it makes no difference whether all of the stream is stored or only such a suffix. */
  lemma TailOfStored(s: seq<Byte>, t: seq<Byte>, limits: Limits, x: nat)
    requires TailStored(s, t, limits) && TailWindow(t, limits, x)
    ensures x <= |t| && TailWindow(s, limits, |s| - |t| + x)
  {
    var p := |s| - |t|;
    if t == s {
      assert p == 0;
    } else if limits.maxLines > 0 && limits.maxBytes > 0 {
      TailLinesSame(s, t, limits);
      if exists y: nat :: TailLines(t, limits, y) {
        TailShift(s, t, limits, x);
      } else {
        if |t| <= limits.maxBytes { TwoLinesStand(t, limits); }
        TailCutSame(s, t, limits);
      }
    }
  }

  lemma TailLinesSame(s: seq<Byte>, t: seq<Byte>, limits: Limits)
    requires TailStored(s, t, limits) && t != s
    ensures forall y: nat :: TailLines(s, limits, y) <==> y >= |s| - |t| && TailLines(t, limits, y - (|s| - |t|))
    ensures forall x: nat :: TailLines(t, limits, x) ==> TailLines(s, limits, |s| - |t| + x)
  {
    var p := |s| - |t|;
    forall y: nat ensures TailLines(s, limits, y) <==> y >= p && TailLines(t, limits, y - p) {
      if y < p {
        NoLongerTail(s, t, limits, y);
      } else if y <= |s| {
        TailShift(s, t, limits, y - p);
      }
    }
    forall x: nat | TailLines(t, limits, x) ensures TailLines(s, limits, p + x) {
      TailShift(s, t, limits, x);
    }
  }

  lemma TailCutSame(s: seq<Byte>, t: seq<Byte>, limits: Limits)
    requires TailStored(s, t, limits) && |t| > limits.maxBytes
    ensures forall y: nat :: TailCut(s, limits, y) <==> y >= |s| - |t| && TailCut(t, limits, y - (|s| - |t|))
    ensures forall x: nat :: TailCut(t, limits, x) ==> TailCut(s, limits, |s| - |t| + x)
  {
    var p := |s| - |t|;
    forall x: nat | x <= |t| ensures Boundary(t, x) <==> Boundary(s, p + x) {
      if x < |t| { assert t[x] == s[p + x]; }
    }
  }

  lemma HeadLinesSame(s: seq<Byte>, t: seq<Byte>, limits: Limits, x: nat)
    requires HeadStored(s, t, limits) && t != s
    ensures HeadLines(s, limits, x) <==> HeadLines(t, limits, x)
  {
    if x <= |t| {
      assert t[..x] == s[..x];
      if x == |t| { assert t[..x] == t; }
    } else if x <= |s| {
      assert s[..|t|] == t;
      NewlinesSplit(s, |t|, x);
      assert Newlines(s[..x]) >= Newlines(t);
      if !Terminated(s[..x]) {
      } else {
        LastIsNewline(s[|t|..x], s[..x]);
      }
    }
  }

  lemma LastIsNewline(b: seq<Byte>, whole: seq<Byte>)
    requires b != [] && |b| <= |whole| && b == whole[|whole| - |b|..] && Terminated(whole)
    ensures Newlines(b) > 0
  {
    assert b[|b| - 1] == NEWLINE;
    assert b == b[..|b| - 1] + [NEWLINE];
    NewlinesConcat(b[..|b| - 1], [NEWLINE]);
    OneNewline();
  }

  /** The head window of any text that starts with such a prefix is the prefix's. */
  lemma HeadOfStored(s: seq<Byte>, t: seq<Byte>, limits: Limits, x: nat)
    requires HeadStored(s, t, limits) && HeadWindow(t, limits, x)
    ensures HeadWindow(s, limits, x) && x <= |t|
  {
    if t != s && limits.maxLines > 0 && limits.maxBytes > 0 {
      forall y: nat ensures HeadLines(s, limits, y) <==> HeadLines(t, limits, y) { HeadLinesSame(s, t, limits, y); }
      if !exists y: nat :: HeadLines(t, limits, y) {
        if |t| <= limits.maxBytes {
          if NEWLINE !in t { NewlinesNone(t); }
          var i :| 0 <= i < |t| && t[i] == NEWLINE;
          FirstLineStands(t, limits, i);
        }
        assert forall y: nat :: HeadCut(s, limits, y) <==> HeadCut(t, limits, y);
      }
    }
  }

  // ---------------------------------------------------------------- the buffer

  /** `t` is what a buffer keeps of the stream `s`. */
  ghost predicate Stores(s: seq<Byte>, t: seq<Byte>, limits: Limits, full: bool) {
    if limits.retain.Head? then t <= s && if full then HeadFull(t, limits) else t == s
    else !full && TailStored(s, t, limits)
  }

  lemma EmptyStores(limits: Limits)
    ensures Stores([], [], limits, false)
  {
  }

  predicate HeadFull(t: seq<Byte>, limits: Limits) {
    |t| > limits.maxBytes || Newlines(t) >= limits.maxLines
  }

  lemma StoresGrows(s: seq<Byte>, t: seq<Byte>, limits: Limits, full: bool, text: seq<Byte>)
    requires Stores(s, t, limits, full)
    ensures full ==> Stores(s + text, t, limits, full)
    ensures !full ==> Stores(s + text, t + text, limits, limits.retain.Head? && HeadFull(t + text, limits))
  {
    if limits.retain.Tail? { TailGrows(s, t, text, limits); }
  }

  /** A chunk of whole characters with its true counts. */
  predicate Sized(c: Chunk) {
    c.text != [] && Boundary(c.text, 0) && c.bytes == |c.text| && c.newlines == Newlines(c.text)
  }

  function Lines(newlines: int, terminated: bool): int {
    newlines + if terminated then 0 else 1
  }

  /** What a caller is shown of a bounded stream. */
  function Shown(slice: Slice): BoundedOutput {
    BoundedOutput(Sanitize(slice.text), slice.droppedBytes, slice.droppedLines)
  }

  function Longer(n: nat, text: seq<Byte>): nat {
    if |text| > n then |text| else n
  }

  /** Whether the first chunk can be given up: what follows it exceeds a limit by two or more. */
  predicate Spare(chunks: seq<Chunk>, bytes: int, newlines: int, limits: Limits) {
    |chunks| > 1
    && (bytes - chunks[0].bytes > limits.maxBytes + 1 || newlines - chunks[0].newlines > limits.maxLines + 1)
  }

  function ChunkOf(text: seq<Byte>): Chunk {
    Chunk(text, |text|, Newlines(text))
  }

  /** What is left when no more chunks can be given up. */
  function Spared(chunks: seq<Chunk>, bytes: int, newlines: int, limits: Limits): seq<Chunk>
    decreases |chunks|
  {
    if Spare(chunks, bytes, newlines, limits)
    then Spared(chunks[1..], bytes - chunks[0].bytes, newlines - chunks[0].newlines, limits)
    else chunks
  }

  // ---------------------------------------------------------------- how much is stored

  ghost predicate Character(b: seq<Byte>, i: nat, j: nat) {
    i < j <= |b| && Boundary(b, i) && forall x :: i < x < j ==> !Boundary(b, x)
  }

  /** No character is longer than `n`. */
  ghost predicate Spans(b: seq<Byte>, n: nat) {
    forall i: nat, j: nat :: Character(b, i, j) ==> j - i <= n
  }

  lemma SpansAppend(b: seq<Byte>, text: seq<Byte>, n: nat)
    requires Spans(b, n) && |text| <= n && Boundary(text, 0)
    ensures Spans(b + text, n)
  {
    var all := b + text;
    forall i: nat, j: nat | Character(all, i, j) ensures j - i <= n {
      assert Boundary(all, |b|) by { if text != [] { assert all[|b|] == text[0]; } }
      if j <= |b| {
        assert Character(b, i, j) by {
          forall x | i < x < j ensures !Boundary(b, x) { assert !Boundary(all, x) && all[x] == b[x]; }
          assert all[i] == b[i];
        }
      }
    }
  }

  lemma SpansSuffix(b: seq<Byte>, start: nat, n: nat)
    requires Spans(b, n) && start <= |b|
    ensures Spans(b[start..], n)
  {
    var rest := b[start..];
    forall i: nat, j: nat | Character(rest, i, j) ensures j - i <= n {
      assert Character(b, start + i, start + j) by {
        assert rest[i] == b[start + i];
        forall x | start + i < x < start + j ensures !Boundary(b, x) {
          assert !Boundary(rest, x - start) && rest[x - start] == b[x];
        }
      }
    }
  }

  lemma {:induction false} NextBoundary(b: seq<Byte>, i: nat, from: nat) returns (j: nat)
    requires i < from <= |b| && Boundary(b, i) && forall x :: i < x < from ==> !Boundary(b, x)
    ensures Character(b, i, j) && Boundary(b, j)
    decreases |b| - from
  {
    if Boundary(b, from) { return from; }
    j := NextBoundary(b, i, from + 1);
  }

  /** The margin is a window and at most a character. */
  lemma MarginShort(b: seq<Byte>, limits: Limits, start: nat, n: nat)
    requires Margin(b, limits, start) && Spans(b, n)
    ensures |b| - start <= limits.maxBytes + n
  {
    if start < |b| {
      var x := NextBoundary(b, start, start + 1);
      assert !Exceeds(b[x..], limits);
    }
  }

  lemma MarginSmall(t: seq<Byte>, text: seq<Byte>, limits: Limits, n: nat)
    requires Spans(t, n) && exists start: nat :: Margin(t, limits, start) && text == t[start..]
    ensures |text| <= limits.maxBytes + n && Spans(text, n)
  {
    hide Spans;
    var start: nat :| Margin(t, limits, start) && text == t[start..];
    MarginShort(t, limits, start, n);
    SpansSuffix(t, start, n);
  }

  /** Chunks no longer than `most` whose text has no character longer than `n`. */
  ghost predicate SmallChunks(chunks: seq<Chunk>, most: nat, n: nat) {
    (forall i :: 0 <= i < |chunks| ==> chunks[i].bytes <= most) && Spans(Joined(chunks), n)
  }

  lemma SmallMore(chunks: seq<Chunk>, most: nat, n: nat, oldMost: nat, oldN: nat)
    requires SmallChunks(chunks, oldMost, oldN) && oldMost <= most && oldN <= n
    ensures SmallChunks(chunks, most, n)
  {
    SpansMore(Joined(chunks), oldN, n);
    hide Joined, Spans;
  }

  lemma SmallGrows(chunks: seq<Chunk>, c: Chunk, most: nat, n: nat)
    requires SmallChunks(chunks, most, n)
    requires c.bytes == |c.text| && |c.text| <= n <= most && Boundary(c.text, 0)
    ensures SmallChunks(chunks + [c], most, n)
  {
    JoinedAppend(chunks, c);
    SpansAppend(Joined(chunks), c.text, n);
    hide Joined, Spans, Boundary;
  }

  lemma SpansMore(b: seq<Byte>, n: nat, m: nat)
    requires Spans(b, n) && n <= m
    ensures Spans(b, m)
  {
    hide Character;
  }

  class OutputBuffer {
    const limits: Limits
    var chunks: seq<Chunk>
    var storedBytes: int
    var storedNewlines: int
    var full: bool
    var totalBytes: int
    var totalNewlines: int
    var endsWithNewline: bool
    /** The whole stream, and its longest chunk. */
    ghost var stream: seq<Byte>
    ghost var longest: nat
    /** A snapshot has joined what was stored since. */
    ghost var joined: bool

    ghost predicate Totals()
      reads this
    {
      totalBytes == |stream| && totalNewlines == Newlines(stream) && endsWithNewline == Terminated(stream)
      && Boundary(stream, 0)
    }

    ghost predicate Parts()
      reads this
    {
      && (forall i :: 0 <= i < |chunks| ==> Sized(chunks[i]))
      && storedBytes == |Joined(chunks)| && storedNewlines == Newlines(Joined(chunks))
      && Boundary(Joined(chunks), 0)
    }

    /** A chunk is no longer than one that was accepted, or for tail than that and a window once chunks were joined. */
    ghost function Largest(): nat
      reads this
    {
      longest + if joined then limits.maxBytes else 0
    }

    ghost predicate Small()
      reads this
    {
      && (limits.retain.Head? ==> storedBytes <= limits.maxBytes + if full then longest else 0)
      && (limits.retain.Tail? ==> SmallChunks(chunks, Largest(), longest))
    }

    ghost predicate Valid()
      reads this
    {
      && Totals() && Parts() && Stores(stream, Joined(chunks), limits, full) && Small()
      && (limits.retain.Tail? ==> !Spare(chunks, storedBytes, storedNewlines, limits))
    }

    lemma Counts()
      requires Valid()
      ensures storedBytes == |Joined(chunks)| && storedNewlines == Newlines(Joined(chunks))
    {
    }

    /** No stored byte is counted twice: what follows the first chunk is within the limits, or the first could go. */
    lemma HeldWithin()
      requires Valid()
      ensures storedBytes <= limits.maxBytes + 1 + Largest()
    {
      if chunks == [] { assert Joined(chunks) == []; }
      if |chunks| == 1 { assert Joined(chunks) == chunks[0].text + Joined(chunks[1..]) && Joined(chunks[1..]) == []; }
    }

    constructor (limits: Limits)
      ensures Valid() && this.limits == limits && stream == [] && longest == 0 && !joined
      ensures chunks == [] && storedBytes == 0 && storedNewlines == 0
    {
      this.limits := limits;
      chunks, storedBytes, storedNewlines, full := [], 0, 0, false;
      totalBytes, totalNewlines, endsWithNewline, stream := 0, 0, true, [];
      longest, joined := 0, false;
      new;
      assert Joined(chunks) == [];
      EmptyStores(limits);
    }

    /** The chunks once `text` arrived. */
    ghost function Taken(before: seq<Chunk>, bytes: int, newlines: int, text: seq<Byte>): seq<Chunk> {
      if text == [] then before else Spared(before + [ChunkOf(text)], bytes + |text|, newlines + Newlines(text), limits)
    }

    /** Accepts whole characters. */
    method Accept(text: seq<Byte>) returns (accepted: bool)
      requires Valid() && Boundary(text, 0)
      modifies this
      ensures Valid() && stream == old(stream) + text && accepted == (text != [])
      ensures longest == Longer(old(longest), text) && joined == old(joined)
      ensures storedBytes <= limits.maxBytes + 1 + Largest()
      ensures limits.retain.Tail? ==> chunks == Taken(old(chunks), old(storedBytes), old(storedNewlines), text)
    {
      accepted := |text| > 0;
      if accepted {
        Include(text);
      } else {
        assert stream == stream + text;
      }
      HeldWithin();
    }

    method Include(text: seq<Byte>)
      requires Valid() && text != [] && Boundary(text, 0)
      modifies this
      ensures Valid() && stream == old(stream) + text && longest == Longer(old(longest), text) && joined == old(joined)
      ensures limits.retain.Tail? ==> chunks == Taken(old(chunks), old(storedBytes), old(storedNewlines), text)
    {
      assert limits.retain.Tail? ==> !full;
      hide Newlines, Stores, SmallChunks, Boundary, Spared;
      ghost var most, n := Largest(), longest;
      Count(text);
      StoresGrows(old(stream), Joined(chunks), limits, full, text);
      if limits.retain.Tail? { SmallMore(chunks, Largest(), longest, most, n); }
      if !full { Take(text); }
    }

    /** Stores a chunk that was counted. */
    method Take(text: seq<Byte>)
      requires Totals() && Parts() && Small() && !full && text != [] && Boundary(text, 0) && |text| <= longest
      requires Stores(stream, Joined(chunks) + text, limits, limits.retain.Head? && HeadFull(Joined(chunks) + text, limits))
      modifies this`chunks, this`storedBytes, this`storedNewlines, this`full
      ensures Valid()
      ensures limits.retain.Tail? ==> chunks == Taken(old(chunks), old(storedBytes), old(storedNewlines), text)
    {
      hide Stores, Boundary, SmallChunks, Spared;
      Store(text);
      if limits.retain.Head? {
        full := storedBytes > limits.maxBytes || storedNewlines >= limits.maxLines;
      } else {
        SmallGrows(old(chunks), ChunkOf(text), Largest(), longest);
        DropSpare();
      }
    }

    method Count(text: seq<Byte>)
      requires Totals() && text != [] && Boundary(text, 0)
      modifies this`totalBytes, this`totalNewlines, this`endsWithNewline, this`stream, this`longest
      ensures Totals() && stream == old(stream) + text && longest == Longer(old(longest), text)
    {
      var newlines := CountNewlines(text);
      NewlinesConcat(stream, text);
      totalBytes := totalBytes + |text|;
      totalNewlines := totalNewlines + newlines;
      endsWithNewline := text[|text| - 1] == NEWLINE;
      stream, longest := stream + text, Longer(longest, text);
    }

    method Store(text: seq<Byte>)
      requires Parts() && text != [] && Boundary(text, 0)
      modifies this`chunks, this`storedBytes, this`storedNewlines
      ensures Parts() && Joined(chunks) == old(Joined(chunks)) + text && storedBytes == old(storedBytes) + |text|
      ensures chunks == old(chunks) + [ChunkOf(text)] && storedNewlines == old(storedNewlines) + Newlines(text)
    {
      var newlines := CountNewlines(text);
      var c := Chunk(text, |text|, newlines);
      NewlinesConcat(Joined(chunks), text);
      JoinedAppend(chunks, c);
      chunks := chunks + [c];
      storedBytes := storedBytes + |text|;
      storedNewlines := storedNewlines + newlines;
    }

    /** Afterwards no leading chunk can be spared. */
    method DropSpare()
      requires Parts() && Stores(stream, Joined(chunks), limits, full) && Small() && limits.retain.Tail?
      modifies this`chunks, this`storedBytes, this`storedNewlines
      ensures Parts() && Stores(stream, Joined(chunks), limits, full) && Small()
      ensures !Spare(chunks, storedBytes, storedNewlines, limits)
      ensures chunks == Spared(old(chunks), old(storedBytes), old(storedNewlines), limits)
    {
      hide Stores, Spans, Newlines;
      while |chunks| > 1
        invariant Parts() && Stores(stream, Joined(chunks), limits, full) && Small()
        invariant Spared(chunks, storedBytes, storedNewlines, limits)
               == Spared(old(chunks), old(storedBytes), old(storedNewlines), limits)
        decreases |chunks|
      {
        var bytesAfter := storedBytes - chunks[0].bytes;
        var newlinesAfter := storedNewlines - chunks[0].newlines;
        if bytesAfter <= limits.maxBytes + 1 && newlinesAfter <= limits.maxLines + 1 { return; }
        StillStores(stream, chunks, limits, full);
        SpansSuffix(Joined(chunks), |chunks[0].text|, longest);
        assert Joined(chunks)[|chunks[0].text|..] == Joined(chunks[1..]);
        DropFirst();
      }
    }

    method DropFirst()
      requires Parts() && |chunks| > 1
      modifies this`chunks, this`storedBytes, this`storedNewlines
      ensures Parts() && chunks == old(chunks)[1..] && storedBytes == old(storedBytes) - old(chunks)[0].bytes
      ensures storedNewlines == old(storedNewlines) - old(chunks)[0].newlines
    {
      var first := chunks[0];
      NewlinesConcat(first.text, Joined(chunks[1..]));
      assert Sized(chunks[1]) && Joined(chunks[1..]) == chunks[1].text + Joined(chunks[1..][1..]);
      chunks := chunks[1..];
      storedBytes := storedBytes - first.bytes;
      storedNewlines := storedNewlines - first.newlines;
    }

    /** The stream goes on by `omitted`, of which only the counts are known; what was stored is given up. */
    method Omit(skip: Skip, ghost omitted: seq<Byte>)
      requires Totals() && Parts() && Small() && Omits(skip, omitted)
      modifies this
      ensures Totals() && Parts() && Small() && stream == old(stream) + omitted && full == old(full)
      ensures longest == old(longest) && joined == old(joined)
      ensures chunks == if omitted == [] then old(chunks) else []
    {
      if skip.bytes == 0 {
        assert stream + omitted == stream;
        return;
      }
      NewlinesConcat(stream, omitted);
      totalBytes := totalBytes + skip.bytes;
      totalNewlines := totalNewlines + skip.newlines;
      endsWithNewline := skip.endsWithNewline;
      chunks, storedBytes, storedNewlines := [], 0, 0;
      stream := stream + omitted;
    }

    /**
     Accepts a chunk, with what was left out before it: only tail retention takes that, and the chunk must
     exceed the window.
     */
    method Push(text: seq<Byte>, skipped: Option<Skip>, ghost omitted: seq<Byte>) returns (refused: bool)
      requires Valid() && Boundary(text, 0)
      requires skipped.None? ==> omitted == []
      requires skipped.Some? ==> Omits(skipped.value, omitted) && Exceeds(text, limits)
      modifies this
      ensures Valid() && (refused <==> skipped.Some? && limits.retain.Head?)
      ensures stream == if refused then old(stream) else old(stream) + omitted + text
      ensures joined == old(joined) && longest == if refused then old(longest) else Longer(old(longest), text)
      ensures storedBytes <= limits.maxBytes + 1 + Largest()
    {
      if skipped.None? {
        var accepted := Accept(text);
        assert old(stream) + omitted == old(stream);
        return false;
      }
      HeldWithin();
      if limits.retain.Head? { return true; }
      Omit(skipped.value, omitted);
      AfterSkip(text);
      HeldWithin();
      return false;
    }

    /** The chunk after a skip: it exceeds the window, so it is all the window needs. */
    method AfterSkip(text: seq<Byte>)
      requires Totals() && Parts() && Small() && limits.retain.Tail? && !full && Boundary(text, 0) && Exceeds(text, limits)
      requires chunks == [] || Stores(stream, Joined(chunks), limits, full)
      modifies this
      ensures Valid() && stream == old(stream) + text && longest == Longer(old(longest), text) && joined == old(joined)
    {
      hide Newlines, TailStored, Boundary;
      AllThatExceeds(stream, chunks, limits, full, text);
      ghost var most, n := Largest(), longest;
      Count(text);
      SmallMore(chunks, Largest(), longest, most, n);
      Take(text);
    }

    /** What is kept of the whole stream, and what the limits dropped from it. */
    method Snapshot() returns (shown: BoundedOutput)
      requires Valid()
      modifies this
      ensures Valid() && stream == old(stream) && longest == old(longest)
      ensures limits.retain.Tail? ==> IsMargin(chunks, old(Joined(chunks)), limits)
      ensures exists slice :: Bounded(stream, limits, slice) && shown == Shown(slice)
    {
      hide Bounded, Newlines, TailStored;
      var stored := Join();
      var kept := BoundOutput(stored, limits);
      WholeSlice(stream, stored, limits, full, kept);
      var storedLines := Lines(storedNewlines, stored == [] || stored[|stored| - 1] == NEWLINE);
      var keptLines := storedLines - kept.droppedLines;
      shown := BoundedOutput(Sanitize(kept.text), totalBytes - |kept.text|,
                             Lines(totalNewlines, endsWithNewline) - keptLines);
      assert shown == Shown(WholeOf(stream, kept.text));
      Trim(stored);
    }

    /** At most one chunk is left: the margin for tail, everything for head. */
    method Trim(stored: seq<Byte>)
      requires Valid() && stored == Joined(chunks)
      modifies this`chunks, this`storedBytes, this`storedNewlines, this`joined
      ensures Valid() && (limits.retain.Tail? ==> IsMargin(chunks, stored, limits))
    {
      if limits.retain.Tail? {
        TrimTail(stored);
      } else if |chunks| > 1 {
        hide Stores, Newlines;
        Replace(stored);
      }
    }

    method TrimTail(stored: seq<Byte>)
      requires Valid() && stored == Joined(chunks) && limits.retain.Tail?
      modifies this`chunks, this`storedBytes, this`storedNewlines, this`joined
      ensures Valid() && IsMargin(chunks, stored, limits)
    {
      hide Stores, Newlines, Margin, Spans, IsMargin;
      var text := TailMargin(stored, limits);
      MarginOfStored(stream, stored, text, limits, full);
      MarginSmall(stored, text, limits, longest);
      MarginKept(stored, text, limits);
      joined := true;
      Replace(text);
    }

    method Join() returns (stored: seq<Byte>)
      requires Parts()
      ensures stored == Joined(chunks)
    {
      stored := [];
      var i := 0;
      while i < |chunks|
        invariant 0 <= i <= |chunks| && Joined(chunks) == stored + Joined(chunks[i..])
      {
        assert chunks[i..][0] == chunks[i] && chunks[i..][1..] == chunks[i + 1..];
        stored := stored + chunks[i].text;
        i := i + 1;
      }
    }

    /** One chunk, or none, takes the place of all. */
    method Replace(text: seq<Byte>)
      requires Parts() && Boundary(text, 0)
      modifies this`chunks, this`storedBytes, this`storedNewlines
      ensures Parts() && Joined(chunks) == text && |chunks| <= 1 && storedBytes == |text|
      ensures chunks == if text == [] then [] else [ChunkOf(text)]
    {
      var newlines := CountNewlines(text);
      chunks := if text == [] then [] else [Chunk(text, |text|, newlines)];
      storedBytes := |text|;
      storedNewlines := newlines;
      assert text != [] ==> chunks[1..] == [] && Joined(chunks) == text + [] && text + [] == text;
    }
  }

  ghost predicate Omits(skip: Skip, omitted: seq<Byte>) {
    && skip.bytes == |omitted| && skip.newlines == Newlines(omitted) && Boundary(omitted, 0)
    && (omitted != [] ==> skip.endsWithNewline == Terminated(omitted))
  }

  lemma AllThatExceeds(s: seq<Byte>, chunks: seq<Chunk>, limits: Limits, full: bool, text: seq<Byte>)
    requires Exceeds(text, limits) && limits.retain.Tail? && !full
    requires chunks == [] || Stores(s, Joined(chunks), limits, full)
    ensures text != [] && Stores(s + text, Joined(chunks) + text, limits, false)
  {
    if chunks == [] {
      assert [] + text == text;
      assert (s + text)[|s|..] == text;
    } else {
      StoresGrows(s, Joined(chunks), limits, full, text);
    }
  }

  /** What is left after the first chunk goes will do, if it still exceeds the window. */
  lemma StillStores(s: seq<Byte>, chunks: seq<Chunk>, limits: Limits, full: bool)
    requires limits.retain.Tail? && Stores(s, Joined(chunks), limits, full) && chunks != [] && Sized(chunks[0])
    requires |Joined(chunks)| - chunks[0].bytes > limits.maxBytes
             || Newlines(Joined(chunks)) - chunks[0].newlines > limits.maxLines
    ensures Stores(s, Joined(chunks[1..]), limits, full)
  {
    var first, t, rest := chunks[0].text, Joined(chunks), Joined(chunks[1..]);
    assert t == first + rest;
    hide Joined, Newlines;
    NewlinesConcat(first, rest);
    SuffixOfSuffix(s, first, rest);
  }

  lemma SuffixOfSuffix(s: seq<Byte>, first: seq<Byte>, rest: seq<Byte>)
    requires |first| + |rest| <= |s| && first + rest == s[|s| - |first| - |rest|..]
    ensures rest == s[|s| - |rest|..]
  {
    forall i | 0 <= i < |rest| ensures rest[i] == s[|s| - |rest| + i] {
      assert (first + rest)[|first| + i] == rest[i];
    }
  }

  lemma TailGrows(s: seq<Byte>, t: seq<Byte>, text: seq<Byte>, limits: Limits)
    requires TailStored(s, t, limits)
    ensures TailStored(s + text, t + text, limits)
  {
    NewlinesConcat(t, text);
    assert (s + text)[|s| - |t|..] == s[|s| - |t|..] + text;
  }

  /** The slice of `s` that keeps `text`. */
  function WholeOf(s: seq<Byte>, text: seq<Byte>): Slice {
    Slice(text, |s| - |text|, LineCount(s) - LineCount(text))
  }

  /** What the stored part keeps is what the whole stream keeps. */
  lemma WholeSlice(s: seq<Byte>, t: seq<Byte>, limits: Limits, full: bool, kept: Slice)
    requires Bounded(t, limits, kept)
    requires Stores(s, t, limits, full)
    ensures Bounded(s, limits, WholeOf(s, kept.text))
    ensures kept == WholeOf(t, kept.text)
  {
    var from: nat, to: nat :| Window(t, limits, from, to) && IsSlice(t, from, to, kept);
    if limits.retain.Head? {
      HeadSlice(s, t, limits, from, to, kept);
    } else {
      TailSlice(s, t, limits, from, to, kept);
    }
  }

  lemma HeadSlice(s: seq<Byte>, t: seq<Byte>, limits: Limits, from: nat, to: nat, kept: Slice)
    requires limits.retain.Head? && HeadStored(s, t, limits) && Window(t, limits, from, to) && IsSlice(t, from, to, kept)
    ensures Bounded(s, limits, WholeOf(s, kept.text)) && kept == WholeOf(t, kept.text)
  {
    HeadOfStored(s, t, limits, to);
    assert s[0..to] == t[0..to];
    HeadBounded(s, limits, to, WholeOf(s, kept.text));
  }

  lemma TailSlice(s: seq<Byte>, t: seq<Byte>, limits: Limits, from: nat, to: nat, kept: Slice)
    requires limits.retain.Tail? && TailStored(s, t, limits) && Window(t, limits, from, to) && IsSlice(t, from, to, kept)
    ensures Bounded(s, limits, WholeOf(s, kept.text)) && kept == WholeOf(t, kept.text)
  {
    hide TailWindow, LineCount;
    TailOfStored(s, t, limits, from);
    SuffixSlice(s, t, from);
    TailBounded(s, limits, |s| - |t| + from, WholeOf(s, kept.text));
  }

  lemma SuffixSlice(s: seq<Byte>, t: seq<Byte>, from: nat)
    requires |t| <= |s| && t == s[|s| - |t|..] && from <= |t|
    ensures s[|s| - |t| + from..|s|] == t[from..|t|]
  {
  }

  lemma HeadBounded(b: seq<Byte>, limits: Limits, to: nat, slice: Slice)
    requires limits.retain.Head? && HeadWindow(b, limits, to) && IsSlice(b, 0, to, slice)
    ensures Bounded(b, limits, slice)
  {
    assert Window(b, limits, 0, to);
  }

  lemma TailBounded(b: seq<Byte>, limits: Limits, from: nat, slice: Slice)
    requires limits.retain.Tail? && TailWindow(b, limits, from) && IsSlice(b, from, |b|, slice)
    ensures Bounded(b, limits, slice)
  {
    assert Window(b, limits, from, |b|);
  }

  // ---------------------------------------------------------------- the margin

  /** The shortest suffix with more than a window, starting at a character; or all of `b`. */
  ghost predicate Margin(b: seq<Byte>, limits: Limits, start: nat) {
    && start <= |b| && Boundary(b, start)
    && (start == 0 || Exceeds(b[start..], limits))
    && forall x :: start < x <= |b| && Boundary(b, x) ==> !Exceeds(b[x..], limits)
  }

  /** One chunk with the margin of `stored`, or none. */
  ghost predicate IsMargin(after: seq<Chunk>, stored: seq<Byte>, limits: Limits) {
    exists start: nat :: Margin(stored, limits, start)
                         && after == if start == |stored| then [] else [ChunkOf(stored[start..])]
  }

  lemma MarginKept(b: seq<Byte>, text: seq<Byte>, limits: Limits)
    requires exists start: nat :: Margin(b, limits, start) && text == b[start..]
    ensures IsMargin(if text == [] then [] else [ChunkOf(text)], b, limits)
  {
    hide Newlines, Exceeds;
    var start: nat :| Margin(b, limits, start) && text == b[start..];
    assert text == [] <==> start == |b|;
  }

  method TailMargin(b: seq<Byte>, limits: Limits) returns (text: seq<Byte>)
    requires Boundary(b, 0)
    ensures exists start: nat :: Margin(b, limits, start) && text == b[start..]
  {
    var byteStart := 0;
    if |b| > limits.maxBytes { byteStart := CharacterEnd(b, |b| - limits.maxBytes - 1); }
    var lineStart := LineMargin(b, limits.maxLines);
    var start := if byteStart > lineStart then byteStart else lineStart;
    MarginIs(b, limits, byteStart, lineStart);
    text := b[start..];
  }

  /** From `start` on there are more than `maxLines` newlines, but not from any later position; or `start` is 0. */
  ghost predicate ByNewlines(b: seq<Byte>, maxLines: nat, start: nat) {
    && start <= |b| && (start == 0 || (start < |b| && b[start] == NEWLINE && Newlines(b[start..]) > maxLines))
    && forall x :: start < x <= |b| ==> Newlines(b[x..]) <= maxLines
  }

  lemma MarginIs(b: seq<Byte>, limits: Limits, byteStart: nat, lineStart: nat)
    requires Boundary(b, 0) && ByNewlines(b, limits.maxLines, lineStart)
    requires if |b| > limits.maxBytes
             then byteStart <= |b| - limits.maxBytes - 1 && (byteStart == 0 || Boundary(b, byteStart))
                  && forall x :: byteStart < x <= |b| - limits.maxBytes - 1 ==> !Boundary(b, x)
             else byteStart == 0
    ensures Margin(b, limits, if byteStart > lineStart then byteStart else lineStart)
  {
  }

  method LineMargin(b: seq<Byte>, maxLines: nat) returns (start: nat)
    ensures ByNewlines(b, maxLines, start)
  {
    if |b| == 0 { return 0; }
    var newlines := 0;
    ghost var hi := |b|;
    var index := LastIndexOf(b, NEWLINE, |b| - 1);
    assert b[|b|..] == [];
    while index != -1
      invariant Counted(b, hi, index, newlines) && newlines <= maxLines
      decreases hi
    {
      NewlineAt(b, index, hi);
      newlines := newlines + 1;
      hi := index;
      if newlines > maxLines {
        MarginAt(b, index, newlines, maxLines);
        return index;
      }
      if index == 0 { index := -1; } else { index := LastIndexOf(b, NEWLINE, index - 1); }
    }
    AllCounted(b, hi, newlines, maxLines);
    return 0;
  }

  /** From `hi` on there are `newlines` newlines; the one before is at `index`, if any. */
  ghost predicate Counted(b: seq<Byte>, hi: int, index: int, newlines: int) {
    && -1 <= index < hi <= |b| && newlines == Newlines(b[hi..])
    && NEWLINE !in b[index + 1..hi] && (index != -1 ==> b[index] == NEWLINE)
  }

  lemma MarginAt(b: seq<Byte>, index: nat, newlines: nat, maxLines: nat)
    requires index < |b| && b[index] == NEWLINE && newlines == maxLines + 1
    requires Newlines(b[index..]) == newlines && Newlines(b[index + 1..]) == newlines - 1
    ensures ByNewlines(b, maxLines, index)
  {
    SuffixFewer(b, index + 1);
  }

  lemma AllCounted(b: seq<Byte>, hi: int, newlines: int, maxLines: nat)
    requires Counted(b, hi, -1, newlines) && newlines <= maxLines
    ensures ByNewlines(b, maxLines, 0)
  {
    NoLineBefore(b, 0, hi, |b|);
    assert b[0..|b|] == b[0..] && b[hi..|b|] == b[hi..];
    SuffixFewer(b, 0);
  }

  lemma NewlineAt(b: seq<Byte>, index: nat, hi: nat)
    requires index < hi <= |b| && b[index] == NEWLINE && NEWLINE !in b[index + 1..hi]
    ensures Newlines(b[index..]) == Newlines(b[hi..]) + 1
    ensures Newlines(b[index + 1..]) == Newlines(b[hi..])
  {
    NoLineBefore(b, index + 1, hi, |b|);
    assert b[index + 1..|b|] == b[index + 1..] && b[hi..|b|] == b[hi..];
    assert b[index..][1..] == b[index + 1..];
  }

  lemma SuffixFewer(b: seq<Byte>, from: nat)
    requires from <= |b|
    ensures forall x :: from <= x <= |b| ==> Newlines(b[x..]) <= Newlines(b[from..])
  {
    forall x | from <= x <= |b| ensures Newlines(b[x..]) <= Newlines(b[from..]) { NewlinesSplit(b, from, x); }
  }

  /** The margin of a stored part will do instead of it. */
  lemma MarginOfStored(s: seq<Byte>, t: seq<Byte>, text: seq<Byte>, limits: Limits, full: bool)
    requires limits.retain.Tail? && Stores(s, t, limits, full)
    requires exists start: nat :: Margin(t, limits, start) && text == t[start..]
    ensures Stores(s, text, limits, full) && Boundary(text, 0)
  {
    var start: nat :| Margin(t, limits, start) && text == t[start..];
    assert start == 0 ==> text == t;
    assert text == s[|s| - |text|..];
  }

  // ---------------------------------------------------------------- more than one chunk

  const ONE_BYTE := Limits(1, 10, Tail)
  const LETTER: seq<Byte> := [0x61]

  lemma Letters()
    ensures Boundary(LETTER, 0) && Newlines(LETTER) == 0 && Newlines(LETTER + LETTER) == 0
    ensures Joined([ChunkOf(LETTER)]) == LETTER && Joined([ChunkOf(LETTER), ChunkOf(LETTER)]) == LETTER + LETTER
    ensures Joined([ChunkOf(LETTER + LETTER)]) == LETTER + LETTER && |LETTER| == 1
    ensures |Joined([ChunkOf(LETTER + LETTER), ChunkOf(LETTER)])| == 3
    ensures |Joined([ChunkOf(LETTER + LETTER), ChunkOf(LETTER), ChunkOf(LETTER)])| == 4
  {
    var one, two := ChunkOf(LETTER), ChunkOf(LETTER + LETTER);
    assert LETTER[1..] == [] && (LETTER + LETTER)[1..] == LETTER;
    assert [one][1..] == [] && [one, one][1..] == [one] && [two][1..] == [];
    assert [two, one][1..] == [one] && [two, one, one][1..] == [one, one];
    assert Joined([one]) == LETTER + [] && Joined([two]) == LETTER + LETTER + [];
  }

  /** Two letters exceed a window of one byte, and one does not. */
  lemma LettersMargin(start: nat)
    requires Margin(LETTER + LETTER, ONE_BYTE, start)
    ensures start == 0
  {
    var b := LETTER + LETTER;
    assert b[1..] == LETTER && b[2..] == [];
    Letters();
  }

  lemma NothingSpared(chunks: seq<Chunk>, bytes: int, limits: Limits)
    requires chunks != [] && bytes - chunks[0].bytes <= limits.maxBytes + 1 && chunks[0].newlines == 0
    ensures Spared(chunks, bytes, 0, limits) == chunks
  {
  }

  lemma LettersInTurn(before: seq<Chunk>)
    ensures before + [ChunkOf(LETTER)] + [ChunkOf(LETTER)] == before + [ChunkOf(LETTER), ChunkOf(LETTER)]
    ensures (before + [ChunkOf(LETTER)])[0] == if before == [] then ChunkOf(LETTER) else before[0]
  {
  }

  method PushLetter(buffer: OutputBuffer)
    requires buffer.Valid() && buffer.limits == ONE_BYTE && buffer.longest <= 1 && buffer.storedNewlines == 0
    requires buffer.chunks == [] || (buffer.storedBytes + 1 - buffer.chunks[0].bytes <= 2 && buffer.chunks[0].newlines == 0)
    modifies buffer
    ensures buffer.Valid() && buffer.longest == 1 && buffer.storedNewlines == 0
    ensures buffer.chunks == old(buffer.chunks) + [ChunkOf(LETTER)] && buffer.storedBytes == old(buffer.storedBytes) + 1
  {
    Letters();
    ghost var chunks := buffer.chunks + [ChunkOf(LETTER)];
    NothingSpared(chunks, buffer.storedBytes + 1, ONE_BYTE);
    assert ChunkOf(LETTER).text == LETTER && buffer.Taken(buffer.chunks, buffer.storedBytes, 0, LETTER) == chunks;
    assert Longer(buffer.longest, LETTER) == 1 && LETTER != [] && ONE_BYTE.retain.Tail? && |LETTER| == 1;
    hide *;
    JoinedAppend(buffer.chunks, ChunkOf(LETTER));
    NewlinesConcat(Joined(buffer.chunks), LETTER);
    buffer.Counts();
    var accepted := buffer.Accept(LETTER);
    buffer.Counts();
  }

  /**
   With a window of one byte, single characters and a snapshot in between, more is stored than the window, one byte more
   and the longest chunk that was accepted.
   */
  method HoldsMore() returns (buffer: OutputBuffer)
    ensures fresh(buffer) && buffer.Valid() && buffer.limits.maxBytes == 1 && buffer.longest == 1
    ensures buffer.storedBytes == 4 && buffer.storedBytes > buffer.limits.maxBytes + 1 + buffer.longest
  {
    buffer := new OutputBuffer(ONE_BYTE);
    Letters();
    ghost var both := ChunkOf(LETTER + LETTER);
    assert both == Chunk(LETTER + LETTER, 2, 0) && ChunkOf(LETTER) == Chunk(LETTER, 1, 0);
    assert ONE_BYTE.maxBytes == 1 && ONE_BYTE.retain.Tail?;
    LettersInTurn([]);
    LettersInTurn([both]);
    hide *;
    PushLetter(buffer);
    PushLetter(buffer);
    assert [] + [ChunkOf(LETTER), ChunkOf(LETTER)] == [ChunkOf(LETTER), ChunkOf(LETTER)];
    var shown := buffer.Snapshot();
    SnapshotLetters(buffer.chunks);
    buffer.Counts();
    PushLetter(buffer);
    PushLetter(buffer);
  }

  lemma SnapshotLetters(chunks: seq<Chunk>)
    requires IsMargin(chunks, LETTER + LETTER, ONE_BYTE)
    ensures chunks == [ChunkOf(LETTER + LETTER)] && |Joined(chunks)| == 2 && Newlines(Joined(chunks)) == 0
  {
    var both := LETTER + LETTER;
    var start: nat :| Margin(both, ONE_BYTE, start) && chunks == if start == |both| then [] else [ChunkOf(both[start..])];
    LettersMargin(start);
    assert both[0..] == both;
    hide *;
    Letters();
  }
}
