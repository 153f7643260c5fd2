/** The metadata store of one job, seen as a single register. */
module Register {
  import opened Options
  import opened Protocol

  datatype Register = Empty | Holds(data: Data) | Damaged

  /** What the contents of the job's file amount to. */
  function RegisterOf(codec: Codec, contents: Option<Bytes>): Register {
    match contents
    case None => Empty
    case Some(bytes) =>
      match codec.decode(bytes)
      case None => Damaged
      case Some(d) => Holds(d)
  }

  datatype Op =
    | Persisted(data: Data)
    | PersistFailed(data: Data)
    | Got(data: Data)
    | GetFailed
    | Cleared
    | ClearFailed

  /** What an operation may make of the register; the file may also vanish at any time. */
  predicate Steps(r: Register, op: Op, t: Register) {
    match op
    case Persisted(d) => t == Holds(d)
    case PersistFailed(d) => t == r || t == Empty || t == Damaged || t == Holds(d)
    case Got(d) => r == Holds(d) && t == Holds(d)
    case GetFailed => t == r || t == Empty
    case Cleared => r != Empty && t == Empty
    case ClearFailed => t == r || t == Empty
  }

  /** `registers[i]` goes to `registers[i+1]` by `ops[i]`. */
  predicate History(registers: seq<Register>, ops: seq<Op>) {
    && |registers| == |ops| + 1
    && forall i {:trigger ops[i]} :: 0 <= i < |ops| ==> Steps(registers[i], ops[i], registers[i + 1])
  }

  predicate Writes(op: Op, d: Data) {
    op == Persisted(d) || op == PersistFailed(d)
  }

  /** What `op` leaves alone. */
  predicate Keeps(op: Op) {
    !op.Persisted? && !op.Cleared?
  }

  /** The write of `d` the register still holds before operation `k`; -1 if it held `d` from the start. */
  lemma {:induction false} HeldSince(registers: seq<Register>, ops: seq<Op>, k: nat, d: Data) returns (i: int)
    requires History(registers, ops) && k <= |ops| && registers[k] == Holds(d)
    ensures -1 <= i < k
    ensures if i == -1 then registers[0] == Holds(d) else Writes(ops[i], d)
    ensures forall m {:trigger ops[m]} :: i < m < k ==> Keeps(ops[m])
  {
    if k == 0 {
      i := -1;
    } else if Writes(ops[k - 1], d) {
      i := k - 1;
    } else {
      assert Steps(registers[k - 1], ops[k - 1], registers[k]);
      i := HeldSince(registers, ops, k - 1, d);
    }
  }

  /**
    A successful Get returns what the last successful Persist stored, unless a later Persist failed after
    it had stored its own data; and nothing was cleared in between.
   */
  lemma GetReturnsLastPersist(registers: seq<Register>, ops: seq<Op>, p: nat, k: nat)
    requires History(registers, ops) && p < k < |ops| && ops[k].Got?
    requires ops[p].Persisted? && forall m {:trigger ops[m]} :: p < m < k ==> !ops[m].Persisted?
    ensures exists i {:trigger ops[i]} ::
      p <= i < k && Writes(ops[i], ops[k].data) && (forall m {:trigger ops[m]} :: i < m < k ==> Keeps(ops[m]))
    ensures (forall m {:trigger ops[m]} :: p < m < k ==> !ops[m].PersistFailed?) ==>
      ops[k].data == ops[p].data && forall m {:trigger ops[m]} :: p < m < k ==> !ops[m].Cleared?
  {
    var d := ops[k].data;
    assert Steps(registers[k], ops[k], registers[k + 1]);
    var i := HeldSince(registers, ops, k, d);
    assert i >= p by { assert !Keeps(ops[p]); }
  }

  /** After a successful Persist, as long as nothing is persisted or cleared and the file does not vanish, Get cannot return anything else. */
  lemma {:induction false} PersistIsDurable(registers: seq<Register>, ops: seq<Op>, p: nat, k: nat)
    requires History(registers, ops) && p < k <= |ops|
    requires ops[p].Persisted?
    requires forall m {:trigger ops[m]} :: p < m < k ==> (ops[m].Got? || ops[m].GetFailed? || ops[m].ClearFailed?) && registers[m + 1] != Empty
    ensures registers[k] == Holds(ops[p].data)
  {
    assert Steps(registers[k - 1], ops[k - 1], registers[k]);
    if k > p + 1 {
      PersistIsDurable(registers, ops, p, k - 1);
    }
  }
}
