/**
  Stored objects as field maps, and the two field-level operations the
  declared migrations use: set-default and drop. A transform is the ordered
  list of operations a migration function returns; applying it runs them in
  declaration order over the object's fields.
 */
module Records {

  /** A field value; enum members are kept by their member name. */
  datatype Value =
    | Str(s: string)
    | Bool(b: bool)
    | Int(i: int)
    | Uid(id: nat)
    | VerifyKey(key: string)
    | Enum(member: string)
    | Null

  /** An object's fields, by field name. */
  type Record = map<string, Value>

  datatype Operation =
    | SetDefault(field: string, value: Value)  // make_set_default(field, value)
    | Drop(fields: seq<string>)                // drop([fields...])

  /** The callable registered for a version pair: the operation list of its migration function. */
  datatype Transform = Transform(ops: seq<Operation>)

  /** One operation on the fields; set-default fills only an absent field, drop removes the listed fields that are present. */
  function ApplyOperation(op: Operation, r: Record): (out: Record)
    ensures op.SetDefault? ==> out.Keys == r.Keys + {op.field}
    ensures op.SetDefault? && op.field in r ==> out == r
    ensures op.SetDefault? && op.field !in r ==> out[op.field] == op.value
    ensures op.Drop? ==> out.Keys == r.Keys - set f | f in op.fields
    ensures forall f :: f in out ==> (f in r && out[f] == r[f]) || (op.SetDefault? && f == op.field && f !in r)
  {
    match op
    case SetDefault(field, value) => if field in r then r else r[field := value]
    case Drop(fields) => r - set f | f in fields
  }

  /** Runs the operations in declaration order. */
  function Apply(ops: seq<Operation>, r: Record): Record
    decreases |ops|
  {
    if ops == [] then r else Apply(ops[1..], ApplyOperation(ops[0], r))
  }

  /** A one-operation list is that operation. */
  lemma ApplySingle(op: Operation, r: Record)
    ensures Apply([op], r) == ApplyOperation(op, r)
  {
    assert [op][1..] == [];
  }

  /** Running two operation lists one after the other is running their concatenation. */
  lemma {:induction false} ApplyConcat(a: seq<Operation>, b: seq<Operation>, r: Record)
    ensures Apply(a + b, r) == Apply(b, Apply(a, r))
    decreases |a|
  {
    if a != [] {
      assert (a + b)[1..] == a[1..] + b;
      ApplyConcat(a[1..], b, ApplyOperation(a[0], r));
    } else {
      assert a + b == b;
    }
  }

  /** An operation list touches only the fields it names: every other field keeps its value and presence. */
  lemma {:induction false} ApplyLeavesOtherFields(ops: seq<Operation>, r: Record, f: string)
    requires forall k :: 0 <= k < |ops| ==> (ops[k].SetDefault? ==> ops[k].field != f) && (ops[k].Drop? ==> f !in ops[k].fields)
    ensures f in Apply(ops, r) <==> f in r
    ensures f in r ==> Apply(ops, r)[f] == r[f]
    decreases |ops|
  {
    if ops != [] {
      ApplyLeavesOtherFields(ops[1..], ApplyOperation(ops[0], r), f);
    }
  }
}
