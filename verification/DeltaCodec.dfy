/**
 The wire codec of one state stream: an encoder that interns a path at its second use and drops the
 path of an op that repeats its predecessor's, and the decoder at the other end.  The two are proved
 inverse across batches, and two consecutive batches may be concatenated, which is what a link does
 with the ops that wait on it.
 */
module DeltaCodec {

  datatype Segment = Field(name: string) | Index(n: nat)

  type Path = seq<Segment>

  datatype Kind = SetAt | DeleteAt | AppendText | TruncateText | Splice | Permute

  /** What an op does at its path; the argument is JSON text the codec never looks at. */
  datatype Change = Change(kind: Kind, arg: string)

  datatype Op = Replace(value: string) | Edit(path: Path, change: Change)

  /** Only splices and permutations may address the root. */
  predicate Addressable(path: Path, change: Change) {
    change.kind == Splice || change.kind == Permute || path != []
  }

  predicate WellFormed(ops: seq<Op>) {
    forall i :: 0 <= i < |ops| && ops[i].Edit? ==> Addressable(ops[i].path, ops[i].change)
  }

  datatype Ref = Inline(path: Path) | Id(id: nat)

  datatype WireOp =
    | WireReplace(value: string)
    | Define(id: nat, path: Path)
    | WithRef(ref: Ref, change: Change)
    | Repeat(change: Change)

  // ---------------------------------------------------------------- encoder

  datatype Encoder = Encoder(seen: set<Path>, ids: map<Path, nat>, nextId: nat)

  const FRESH_ENCODER := Encoder({}, map[], 0)

  /** The encoder after one op, the path the next op may repeat, and what the op becomes on the wire. */
  datatype Encoded = Encoded(encoder: Encoder, previous: Path, any: bool, wire: seq<WireOp>)

  function EncodeOp(e: Encoder, previous: Path, any: bool, op: Op): Encoded {
    match op
    case Replace(value) =>
      Encoded(FRESH_ENCODER, [], false, [WireReplace(value)])
    case Edit(path, change) =>
      if any && path == previous then
        Encoded(e, previous, any, [Repeat(change)])
      else if path in e.ids then
        Encoded(e, path, true, [WithRef(Id(e.ids[path]), change)])
      else if path in e.seen then
        Encoded(e.(ids := e.ids[path := e.nextId], nextId := e.nextId + 1), path, true,
                [Define(e.nextId, path), WithRef(Id(e.nextId), change)])
      else
        Encoded(e.(seen := e.seen + {path}), path, true, [WithRef(Inline(path), change)])
  }

  function EncodeFrom(e: Encoder, previous: Path, any: bool, ops: seq<Op>): Encoded
    decreases |ops|
  {
    if ops == [] then Encoded(e, previous, any, [])
    else
      var first := EncodeOp(e, previous, any, ops[0]);
      var rest := EncodeFrom(first.encoder, first.previous, first.any, ops[1..]);
      rest.(wire := first.wire + rest.wire)
  }

  /** One batch: the path of its first op is always explicit. */
  function Encode(e: Encoder, ops: seq<Op>): Encoded {
    EncodeFrom(e, [], false, ops)
  }

  // ---------------------------------------------------------------- decoder

  type Decoder = map<nat, Path>

  const FRESH_DECODER: Decoder := map[]

  /** `ok` is false when the batch was rejected; `paths` keeps what was defined until then. */
  datatype Decoded = Decoded(paths: Decoder, previous: Path, any: bool, ops: seq<Op>, ok: bool)

  function DecodeOp(paths: Decoder, previous: Path, any: bool, op: WireOp): Decoded {
    match op
    case Define(id, path) => Decoded(paths[id := path], previous, any, [], true)
    case WireReplace(value) => Decoded(map[], [], false, [Replace(value)], true)
    case Repeat(change) =>
      if !any || !Addressable(previous, change) then Decoded(paths, previous, any, [], false)
      else Decoded(paths, previous, any, [Edit(previous, change)], true)
    case WithRef(ref, change) =>
      if ref.Id? && ref.id !in paths then Decoded(paths, previous, any, [], false)
      else
        var path := if ref.Id? then paths[ref.id] else ref.path;
        if !Addressable(path, change) then Decoded(paths, path, true, [], false)
        else Decoded(paths, path, true, [Edit(path, change)], true)
  }

  function DecodeFrom(paths: Decoder, previous: Path, any: bool, wire: seq<WireOp>): Decoded
    decreases |wire|
  {
    if wire == [] then Decoded(paths, previous, any, [], true)
    else
      var first := DecodeOp(paths, previous, any, wire[0]);
      if !first.ok then first
      else
        var rest := DecodeFrom(first.paths, first.previous, first.any, wire[1..]);
        rest.(ops := first.ops + rest.ops)
  }

  function Decode(paths: Decoder, wire: seq<WireOp>): Decoded {
    DecodeFrom(paths, [], false, wire)
  }

  // ---------------------------------------------------------------- the two agree

  /** The decoder knows every id the encoder may still use. */
  ghost predicate Synced(e: Encoder, paths: Decoder) {
    forall p :: p in e.ids ==> e.ids[p] < e.nextId && e.ids[p] in paths && paths[e.ids[p]] == p
  }

  lemma {:induction false} EncodeDecodeFrom(e: Encoder, paths: Decoder, previous: Path, any: bool, ops: seq<Op>)
    requires Synced(e, paths) && WellFormed(ops)
    ensures var sent := EncodeFrom(e, previous, any, ops);
            var got := DecodeFrom(paths, previous, any, sent.wire);
            && got.ok && got.ops == ops
            && Synced(sent.encoder, got.paths)
            && got.previous == sent.previous && got.any == sent.any
    decreases |ops|
  {
    if ops != [] {
      var first := EncodeOp(e, previous, any, ops[0]);
      var rest := EncodeFrom(first.encoder, first.previous, first.any, ops[1..]);
      var head := DecodeFrom(paths, previous, any, first.wire);
      assert head.ok && head.ops == [ops[0]] && Synced(first.encoder, head.paths)
             && head.previous == first.previous && head.any == first.any by {
        OneOp(e, paths, previous, any, ops[0]);
      }
      DecodeConcat(paths, previous, any, first.wire, rest.wire);
      EncodeDecodeFrom(first.encoder, head.paths, first.previous, first.any, ops[1..]);
      assert ops == [ops[0]] + ops[1..];
    }
  }

  lemma OneOp(e: Encoder, paths: Decoder, previous: Path, any: bool, op: Op)
    requires Synced(e, paths) && WellFormed([op])
    ensures var sent := EncodeOp(e, previous, any, op);
            var got := DecodeFrom(paths, previous, any, sent.wire);
            && got.ok && got.ops == [op]
            && Synced(sent.encoder, got.paths)
            && got.previous == sent.previous && got.any == sent.any
  {
    var sent := EncodeOp(e, previous, any, op);
    assert [op][0] == op;
    if |sent.wire| == 1 {
      DecodeSingle(paths, previous, any, sent.wire[0]);
      assert sent.wire == [sent.wire[0]];
    } else {
      DecodePair(paths, previous, any, sent.wire[0], sent.wire[1]);
      assert sent.wire == [sent.wire[0], sent.wire[1]];
    }
  }

  lemma DecodeSingle(paths: Decoder, previous: Path, any: bool, x: WireOp)
    ensures DecodeFrom(paths, previous, any, [x]) == DecodeOp(paths, previous, any, x)
  {
    var step := DecodeOp(paths, previous, any, x);
    assert [x][1..] == [] && step.ops + [] == step.ops;
  }

  lemma DecodePair(paths: Decoder, previous: Path, any: bool, x: WireOp, y: WireOp)
    ensures var first := DecodeOp(paths, previous, any, x);
            var second := DecodeOp(first.paths, first.previous, first.any, y);
            DecodeFrom(paths, previous, any, [x, y])
            == if first.ok then second.(ops := first.ops + second.ops) else first
  {
    var first := DecodeOp(paths, previous, any, x);
    assert [x, y][1..] == [y];
    DecodeSingle(first.paths, first.previous, first.any, y);
  }

  /** Decoding a concatenation is decoding one part after the other, unless the first is rejected. */
  lemma {:induction false} DecodeConcat(paths: Decoder, previous: Path, any: bool, a: seq<WireOp>, b: seq<WireOp>)
    ensures var first := DecodeFrom(paths, previous, any, a);
            DecodeFrom(paths, previous, any, a + b) ==
            if !first.ok then first
            else var rest := DecodeFrom(first.paths, first.previous, first.any, b);
                 rest.(ops := first.ops + rest.ops)
    decreases |a|
  {
    if a == [] {
      assert a + b == b;
      var rest := DecodeFrom(paths, previous, any, b);
      assert [] + rest.ops == rest.ops;
    } else {
      var head := DecodeOp(paths, previous, any, a[0]);
      assert (a + b)[0] == a[0] && (a + b)[1..] == a[1..] + b;
      if head.ok {
        DecodeConcat(head.paths, head.previous, head.any, a[1..], b);
        var mid := DecodeFrom(head.paths, head.previous, head.any, a[1..]);
        if mid.ok {
          var rest := DecodeFrom(mid.paths, mid.previous, mid.any, b);
          assert head.ops + (mid.ops + rest.ops) == (head.ops + mid.ops) + rest.ops;
        }
      }
    }
  }

  /** A batch whose first op names its path: what came before it does not matter. */
  predicate SelfStarting(wire: seq<WireOp>) {
    wire == [] || (!wire[0].Repeat? && (wire[0].Define? ==> SelfStarting(wire[1..])))
  }

  lemma {:induction false} SelfStartingIgnoresPrevious(paths: Decoder, previous: Path, any: bool, wire: seq<WireOp>)
    requires SelfStarting(wire)
    ensures var told := DecodeFrom(paths, previous, any, wire);
            var blank := Decode(paths, wire);
            told.ok == blank.ok && told.ops == blank.ops && told.paths == blank.paths
  {
    SelfStartingIgnores(paths, previous, any, [], false, wire);
  }

  lemma {:induction false} SelfStartingIgnores(paths: Decoder, p: Path, a: bool, q: Path, b: bool, wire: seq<WireOp>)
    requires SelfStarting(wire)
    ensures var x := DecodeFrom(paths, p, a, wire);
            var y := DecodeFrom(paths, q, b, wire);
            x.ok == y.ok && x.ops == y.ops && x.paths == y.paths
    decreases |wire|
  {
    if wire != [] && wire[0].Define? {
      SelfStartingIgnores(paths[wire[0].id := wire[0].path], p, a, q, b, wire[1..]);
    }
  }

  lemma {:induction false} SelfStartingConcat(a: seq<WireOp>, b: seq<WireOp>)
    requires SelfStarting(a) && SelfStarting(b)
    ensures SelfStarting(a + b)
  {
    if a == [] {
      assert a + b == b;
    } else {
      assert (a + b)[0] == a[0] && (a + b)[1..] == a[1..] + b;
      if a[0].Define? {
        SelfStartingConcat(a[1..], b);
      }
    }
  }

  lemma EncodeSelfStarting(e: Encoder, ops: seq<Op>)
    ensures SelfStarting(Encode(e, ops).wire)
  {
    if ops != [] {
      var first := EncodeOp(e, [], false, ops[0]);
      var rest := EncodeFrom(first.encoder, first.previous, first.any, ops[1..]);
      var wire := first.wire + rest.wire;
      assert wire[0] == first.wire[0];
      if |first.wire| == 2 {
        assert wire[1..][0] == first.wire[1];
      }
    }
  }

  /** Decoding what was encoded gives the ops back, and the pair stays in step for the next batch. */
  lemma RoundTrip(e: Encoder, paths: Decoder, ops: seq<Op>)
    requires Synced(e, paths) && WellFormed(ops)
    ensures var sent := Encode(e, ops);
            var got := Decode(paths, sent.wire);
            got.ok && got.ops == ops && Synced(sent.encoder, got.paths)
  {
    EncodeDecodeFrom(e, paths, [], false, ops);
  }

  /** Concatenated batches decode to the concatenated ops: a link may coalesce what waits on it. */
  lemma Coalesce(paths: Decoder, a: seq<WireOp>, b: seq<WireOp>)
    requires SelfStarting(b)
    ensures var first := Decode(paths, a);
            var whole := Decode(paths, a + b);
            if !first.ok then !whole.ok
            else
              var second := Decode(first.paths, b);
              && whole.ok == second.ok
              && whole.ops == first.ops + second.ops
              && whole.paths == second.paths
  {
    var first := Decode(paths, a);
    DecodeConcat(paths, [], false, a, b);
    if first.ok {
      SelfStartingIgnoresPrevious(first.paths, first.previous, first.any, b);
    }
  }

  /** After a replacement the stream is self-contained: a reader that starts there needs no earlier definition. */
  lemma RecoveryPoint(e: Encoder, paths: Decoder, other: Decoder, before: seq<Op>, value: string, after: seq<Op>)
    requires Synced(e, paths) && WellFormed(before) && WellFormed(after)
    ensures var sent := Encode(e, before + [Replace(value)] + after);
            var tail := EncodeFrom(FRESH_ENCODER, [], false, after).wire;
            && |tail| < |sent.wire|
            && sent.wire[|sent.wire| - |tail| - 1..] == [WireReplace(value)] + tail
            && var joined := Decode(other, [WireReplace(value)] + tail);
               joined.ok && joined.ops == [Replace(value)] + after && Synced(sent.encoder, joined.paths)
  {
    var all := before + [Replace(value)] + after;
    var head := EncodeFrom(e, [], false, before);
    var tail := EncodeFrom(FRESH_ENCODER, [], false, after);
    assert all == before + ([Replace(value)] + after);
    EncodeConcat(e, [], false, before, [Replace(value)] + after);
    assert ([Replace(value)] + after)[1..] == after;
    var sent := Encode(e, all);
    assert sent.wire == head.wire + ([WireReplace(value)] + tail.wire);
    var w := [WireReplace(value)] + tail.wire;
    assert w[1..] == tail.wire;
    EncodeDecodeFrom(FRESH_ENCODER, FRESH_DECODER, [], false, after);
  }

  lemma {:induction false} EncodeConcat(e: Encoder, previous: Path, any: bool, a: seq<Op>, b: seq<Op>)
    ensures var first := EncodeFrom(e, previous, any, a);
            var rest := EncodeFrom(first.encoder, first.previous, first.any, b);
            EncodeFrom(e, previous, any, a + b) == rest.(wire := first.wire + rest.wire)
    decreases |a|
  {
    if a == [] {
      assert a + b == b;
      var rest := EncodeFrom(e, previous, any, b);
      assert [] + rest.wire == rest.wire;
    } else {
      var head := EncodeOp(e, previous, any, a[0]);
      assert (a + b)[0] == a[0] && (a + b)[1..] == a[1..] + b;
      EncodeConcat(head.encoder, head.previous, head.any, a[1..], b);
      var mid := EncodeFrom(head.encoder, head.previous, head.any, a[1..]);
      var rest := EncodeFrom(mid.encoder, mid.previous, mid.any, b);
      assert head.wire + (mid.wire + rest.wire) == (head.wire + mid.wire) + rest.wire;
    }
  }

  // ---------------------------------------------------------------- as the source runs them

  /** The encoder of one stream. */
  class StreamEncoder {
    var seen: set<Path>
    var ids: map<Path, nat>
    var nextId: nat

    ghost function State(): Encoder
      reads this
    {
      Encoder(seen, ids, nextId)
    }

    constructor ()
      ensures State() == FRESH_ENCODER
    {
      seen, ids, nextId := {}, map[], 0;
    }

    method EncodeBatch(ops: seq<Op>) returns (out: seq<WireOp>)
      modifies this
      ensures State() == Encode(old(State()), ops).encoder
      ensures out == Encode(old(State()), ops).wire
    {
      var previous: Path, any := [], false;
      out := [];
      EncodeEnds(State(), previous, any, ops);
      for i := 0 to |ops|
        invariant EncodesRest(Encode(old(State()), ops), out, EncodeFrom(State(), previous, any, ops[i..]))
      {
        hide EncodeFrom, EncodesRest;
        EncodeStep(Encode(old(State()), ops), out, State(), previous, any, ops, i);
        ghost var step, sofar := EncodeOp(State(), previous, any, ops[i]), out;
        match ops[i] {
          case Replace(value) =>
            out := out + [WireReplace(value)];
            seen, ids, nextId := {}, map[], 0;
            previous, any := [], false;
          case Edit(path, change) =>
            var emitted := EncodeEdit(path, change, previous, any);
            out := out + emitted;
            previous, any := path, true;
        }
        assert step.encoder == State() && step.previous == previous && step.any == any && out == sofar + step.wire;
      }
      EncodeEnds(State(), previous, any, ops);
    }

    /** A path is named in full, then defined at its second use, then referred to; a repeated one is left out. */
    method EncodeEdit(path: Path, change: Change, previous: Path, any: bool) returns (emitted: seq<WireOp>)
      modifies this
      ensures var step := EncodeOp(old(State()), previous, any, Edit(path, change));
              State() == step.encoder && emitted == step.wire
    {
      if any && path == previous { return [Repeat(change)]; }
      if path in ids { return [WithRef(Id(ids[path]), change)]; }
      if path in seen {
        ids := ids[path := nextId];
        emitted := [Define(nextId, path), WithRef(Id(nextId), change)];
        nextId := nextId + 1;
      } else {
        seen := seen + {path};
        emitted := [WithRef(Inline(path), change)];
      }
    }
  }

  predicate EncodesRest(whole: Encoded, out: seq<WireOp>, rest: Encoded) {
    whole.encoder == rest.encoder && whole.wire == out + rest.wire
  }

  lemma EncodeStep(whole: Encoded, out: seq<WireOp>, e: Encoder, previous: Path, any: bool, ops: seq<Op>, i: nat)
    requires i < |ops| && EncodesRest(whole, out, EncodeFrom(e, previous, any, ops[i..]))
    ensures var step := EncodeOp(e, previous, any, ops[i]);
            EncodesRest(whole, out + step.wire, EncodeFrom(step.encoder, step.previous, step.any, ops[i + 1..]))
  {
    assert ops[i..][0] == ops[i] && ops[i..][1..] == ops[i + 1..];
  }

  lemma EncodeEnds(e: Encoder, previous: Path, any: bool, ops: seq<Op>)
    ensures EncodeFrom(e, previous, any, ops[|ops|..]) == Encoded(e, previous, any, [])
    ensures EncodesRest(EncodeFrom(e, previous, any, ops), [], EncodeFrom(e, previous, any, ops[0..]))
  {
    assert ops[0..] == ops;
  }

  /** The decoder of one stream. */
  class StreamDecoder {
    var paths: Decoder

    constructor ()
      ensures paths == FRESH_DECODER
    {
      paths := map[];
    }

    method DecodeBatch(wire: seq<WireOp>) returns (out: seq<Op>, ok: bool)
      modifies this
      ensures paths == Decode(old(paths), wire).paths
      ensures ok == Decode(old(paths), wire).ok
      ensures ok ==> out == Decode(old(paths), wire).ops
    {
      var previous: Path, any := [], false;
      out, ok := [], true;
      DecodeEnds(paths, previous, any, wire);
      for i := 0 to |wire|
        invariant ok && DecodesRest(Decode(old(paths), wire), out, DecodeFrom(paths, previous, any, wire[i..]))
      {
        hide DecodeFrom, DecodesRest;
        DecodeStep(Decode(old(paths), wire), out, paths, previous, any, wire, i);
        var emitted;
        emitted, previous, any, ok := DecodeOne(wire[i], previous, any);
        if !ok { return; }
        out := out + emitted;
      }
      DecodeEnds(paths, previous, any, wire);
    }

    /** An op that refers to nothing, or to a path its change does not fit, rejects the batch. */
    method DecodeOne(op: WireOp, previous: Path, any: bool) returns (emitted: seq<Op>, path: Path, some: bool, ok: bool)
      modifies this
      ensures DecodeOp(old(paths), previous, any, op) == Decoded(paths, path, some, emitted, ok)
    {
      emitted, path, some, ok := [], previous, any, true;
      match op {
        case Define(id, defined) =>
          paths := paths[id := defined];
        case WireReplace(value) =>
          paths := map[];
          emitted, path, some := [Replace(value)], [], false;
        case Repeat(change) =>
          ok := any && Addressable(previous, change);
          if ok { emitted := [Edit(previous, change)]; }
        case WithRef(ref, change) =>
          ok := !(ref.Id? && ref.id !in paths);
          if ok {
            path, some := if ref.Id? then paths[ref.id] else ref.path, true;
            ok := Addressable(path, change);
            if ok { emitted := [Edit(path, change)]; }
          }
      }
    }
  }

  predicate DecodesRest(whole: Decoded, out: seq<Op>, rest: Decoded) {
    whole.paths == rest.paths && whole.ok == rest.ok && whole.ops == out + rest.ops
  }

  lemma DecodeStep(whole: Decoded, out: seq<Op>, paths: Decoder, previous: Path, any: bool, wire: seq<WireOp>, i: nat)
    requires i < |wire| && DecodesRest(whole, out, DecodeFrom(paths, previous, any, wire[i..]))
    ensures var step := DecodeOp(paths, previous, any, wire[i]);
            if step.ok
            then DecodesRest(whole, out + step.ops, DecodeFrom(step.paths, step.previous, step.any, wire[i + 1..]))
            else whole.paths == step.paths && !whole.ok
  {
    assert wire[i..][0] == wire[i] && wire[i..][1..] == wire[i + 1..];
  }

  lemma DecodeEnds(paths: Decoder, previous: Path, any: bool, wire: seq<WireOp>)
    ensures DecodeFrom(paths, previous, any, wire[|wire|..]) == Decoded(paths, previous, any, [], true)
    ensures DecodesRest(DecodeFrom(paths, previous, any, wire), [], DecodeFrom(paths, previous, any, wire[0..]))
  {
    assert wire[0..] == wire;
  }
}
