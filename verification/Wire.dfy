/** What travels on a link for the state of held references, and the values it describes. */
module Wire {
  import opened DeltaCodec
  import opened Wrappers

  type Name = string
  type Hold = nat

  /** A revision of a state member: a root document (JSON text) and the edits made to it since. */
  datatype Value = Value(root: string, edits: seq<Op>)

  function Apply(v: Value, op: Op): Value {
    match op
    case Replace(root) => Value(root, [])
    case Edit(_, _) => Value(v.root, v.edits + [op])
  }

  function ApplyAll(v: Value, ops: seq<Op>): Value
    decreases |ops|
  {
    if ops == [] then v else ApplyAll(Apply(v, ops[0]), ops[1..])
  }

  /** Applying ops in two parts is applying them at once. */
  lemma {:induction false} ApplyConcat(v: Value, a: seq<Op>, b: seq<Op>)
    ensures ApplyAll(v, a + b) == ApplyAll(ApplyAll(v, a), b)
    decreases |a|
  {
    if a == [] {
      assert a + b == b;
    } else {
      assert (a + b)[0] == a[0] && (a + b)[1..] == a[1..] + b;
      ApplyConcat(Apply(v, a[0]), a[1..], b);
    }
  }

  /** The shape of an object: its variant and the members it has. */
  datatype Shape = Shape(variant: Option<string>, members: seq<Name>)

  /** A consumer's contract, as far as state goes: the state members of each variant. */
  type Contract = map<string, set<Name>>

  function VariantState(c: Contract, variant: Option<string>): set<Name> {
    if variant.Some? && variant.value in c then c[variant.value] else {}
  }

  /** What a consumer of this contract can hold of `shape`. */
  function Wanted(c: Contract, shape: Shape): set<Name> {
    set n | n in shape.members && n in VariantState(c, shape.variant)
  }

  /** Frames from a provider: a unit's shape with the members whose snapshots follow, a snapshot or reset, ops. */
  datatype Frame =
    | ShapeFrame(hold: Hold, shape: Shape, listed: seq<Name>)
    | FullFrame(hold: Hold, m: Name, value: Value)
    | OpsFrame(hold: Hold, m: Name, ops: seq<WireOp>)
    | OtherFrame(text: string)

  /** Frames towards the provider. */
  datatype Request =
    | Hello(acks: bool)
    | Ack(n: nat)
    | Sub(hold: Hold)
    | Unsub(hold: Hold)
    | Resync(hold: Hold, m: Name)

  predicate About(f: Frame, hold: Hold) {
    !f.OtherFrame? && f.hold == hold
  }
}
