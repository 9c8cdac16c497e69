/**
 * The circuit the table appends to, and the five gate functions qi, qh,
 * qx, qy and qz, taking the circuit explicitly.  With rGates they append
 * the RX/RZ sequence at once; without it they append one placeholder gate.
 */
module Circuits {
  import opened Instructions
  import opened Wrappers
  import opened Decomposition

  /** An append-only list of instructions. */
  class Circuit {
    var data: seq<Instr>

    ghost predicate Valid()
      reads this
    {
      WellFormed(data)
    }

    constructor ()
      ensures Valid() && data == []
    {
      data := [];
    }

    /** Appends `op` applied to `qargs` and `cargs`; the operation must get as many qubits as it acts on. */
    method Append(op: Op, qargs: seq<Qubit>, cargs: seq<Clbit>)
      requires Valid()
      requires |qargs| == op.NumQubits()
      modifies this
      ensures Valid()
      ensures data == old(data) + [Instr(op, qargs, cargs)]
    {
      data := data + [Instr(op, qargs, cargs)];
    }

    /** Appends RX(theta) on `qubit`. */
    method Rx(theta: Angle, qubit: Qubit)
      requires Valid()
      modifies this
      ensures Valid()
      ensures data == old(data) + [Instr(RX(theta), [qubit], [])]
    {
      Append(RX(theta), [qubit], []);
    }

    /** Appends RZ(phi) on `qubit`. */
    method Rz(phi: Angle, qubit: Qubit)
      requires Valid()
      modifies this
      ensures Valid()
      ensures data == old(data) + [Instr(RZ(phi), [qubit], [])]
    {
      Append(RZ(phi), [qubit], []);
    }
  }

  /** What one gate call appends: the bound rule with rGates, the placeholder without. */
  function Emitted(k: Kind, qubit: Qubit, rGates: bool): (r: seq<Instr>)
    ensures rGates ==> OnlyRotations(r) && ActsOn(r, qubit) && |r| == |Rule(k)|
    ensures !rGates ==> |r| == 1 && r[0].op.Name() == PlaceholderName(k) &&
                        r[0].op.Params() == [] && r[0].qargs == [qubit] && r[0].cargs == []
  {
    if rGates then Expansion(k, qubit) else [Placeholder(k, qubit)]
  }

  method Qi(c: Circuit, qubit: Qubit, rGates: bool)
    requires c.Valid()
    modifies c
    ensures c.Valid()
    ensures rGates ==> c.data == old(c.data) + [Instr(RZ(Zero), [qubit], [])]
    ensures !rGates ==> c.data == old(c.data) + [Instr(Named(I), [qubit], [])]
    ensures c.data == old(c.data) + Emitted(I, qubit, rGates)
  {
    if rGates {
      c.Rz(Zero, qubit);
    } else {
      var gate := new PlaceholderGate.QI();
      c.Append(gate.Operation(), [qubit], []);
    }
  }

  method Qh(c: Circuit, qubit: Qubit, rGates: bool)
    requires c.Valid()
    modifies c
    ensures c.Valid()
    ensures rGates ==> c.data == old(c.data) + [Instr(RX(HalfPi), [qubit], []), Instr(RZ(HalfPi), [qubit], [])]
    ensures !rGates ==> c.data == old(c.data) + [Instr(Named(H), [qubit], [])]
    ensures c.data == old(c.data) + Emitted(H, qubit, rGates)
  {
    if rGates {
      c.Rx(HalfPi, qubit);
      c.Rz(HalfPi, qubit);
    } else {
      var gate := new PlaceholderGate.QH();
      c.Append(gate.Operation(), [qubit], []);
    }
  }

  method Qx(c: Circuit, qubit: Qubit, rGates: bool)
    requires c.Valid()
    modifies c
    ensures c.Valid()
    ensures rGates ==> c.data == old(c.data) + [Instr(RZ(-Pi), [qubit], []), Instr(RX(Pi), [qubit], []),
                                                Instr(RZ(Pi), [qubit], [])]
    ensures !rGates ==> c.data == old(c.data) + [Instr(Named(X), [qubit], [])]
    ensures c.data == old(c.data) + Emitted(X, qubit, rGates)
  {
    if rGates {
      c.Rz(-Pi, qubit);
      c.Rx(Pi, qubit);
      c.Rz(Pi, qubit);
    } else {
      var gate := new PlaceholderGate.QX();
      c.Append(gate.Operation(), [qubit], []);
    }
  }

  method Qy(c: Circuit, qubit: Qubit, rGates: bool)
    requires c.Valid()
    modifies c
    ensures c.Valid()
    ensures rGates ==> c.data == old(c.data) + [Instr(RZ(-HalfPi), [qubit], []), Instr(RX(Pi), [qubit], []),
                                                Instr(RZ(HalfPi), [qubit], [])]
    ensures !rGates ==> c.data == old(c.data) + [Instr(Named(Y), [qubit], [])]
    ensures c.data == old(c.data) + Emitted(Y, qubit, rGates)
  {
    if rGates {
      c.Rz(-HalfPi, qubit);
      c.Rx(Pi, qubit);
      c.Rz(HalfPi, qubit);
    } else {
      var gate := new PlaceholderGate.QY();
      c.Append(gate.Operation(), [qubit], []);
    }
  }

  method Qz(c: Circuit, qubit: Qubit, rGates: bool)
    requires c.Valid()
    modifies c
    ensures c.Valid()
    ensures rGates ==> c.data == old(c.data) + [Instr(RZ(Pi), [qubit], [])]
    ensures !rGates ==> c.data == old(c.data) + [Instr(Named(Z), [qubit], [])]
    ensures c.data == old(c.data) + Emitted(Z, qubit, rGates)
  {
    if rGates {
      c.Rz(Pi, qubit);
    } else {
      var gate := new PlaceholderGate.QZ();
      c.Append(gate.Operation(), [qubit], []);
    }
  }

  /** Calls the gate function of kind `k`. */
  method Apply(c: Circuit, k: Kind, qubit: Qubit, rGates: bool)
    requires c.Valid()
    modifies c
    ensures c.Valid()
    ensures c.data == old(c.data) + Emitted(k, qubit, rGates)
  {
    match k
    case I => Qi(c, qubit, rGates);
    case H => Qh(c, qubit, rGates);
    case X => Qx(c, qubit, rGates);
    case Y => Qy(c, qubit, rGates);
    case Z => Qz(c, qubit, rGates);
  }

  /** A new placeholder gate object of kind `k`. */
  method NewPlaceholder(k: Kind) returns (gate: PlaceholderGate)
    ensures fresh(gate) && gate.Valid() && gate.kind == k && gate.definition == None
  {
    if k == I {
      gate := new PlaceholderGate.QI();
    } else if k == H {
      gate := new PlaceholderGate.QH();
    } else if k == X {
      gate := new PlaceholderGate.QX();
    } else if k == Y {
      gate := new PlaceholderGate.QY();
    } else {
      gate := new PlaceholderGate.QZ();
    }
  }

  /**
   * Runs one gate call both ways on fresh circuits and unrolls the
   * placeholder through the definition its own gate object builds:
   * the two modes agree.
   */
  method BothModes(k: Kind, qubit: Qubit)
    returns (deferred: seq<Instr>, immediate: seq<Instr>, gate: PlaceholderGate, definition: seq<Instr>, unrolled: seq<Instr>)
    ensures deferred == [Placeholder(k, qubit)]
    ensures OnlyRotations(immediate) && ActsOn(immediate, qubit) && |immediate| == |Rule(k)|
    ensures gate.kind == k && gate.definition == Some(definition) && definition == Rule(k)
    ensures unrolled == Bind(definition, Formal, deferred[0].qargs[0])
    ensures unrolled == immediate
    ensures Unroll(deferred) == immediate
  {
    var deferredCircuit := new Circuit();
    Apply(deferredCircuit, k, qubit, false);
    deferred := deferredCircuit.data;
    var immediateCircuit := new Circuit();
    Apply(immediateCircuit, k, qubit, true);
    immediate := immediateCircuit.data;
    gate := NewPlaceholder(k);
    gate.Define();
    definition := gate.definition.value;
    unrolled := Bind(definition, Formal, deferred[0].qargs[0]);
    assert Unroll(deferred) == Expand(deferred[0]) + Unroll([]);
  }

  /** The instructions a sequence of gate calls appends, in call order. */
  function Build(calls: seq<(Kind, Qubit)>, rGates: bool): seq<Instr>
  {
    if calls == [] then [] else Build(calls[..|calls| - 1], rGates) + Emitted(calls[|calls| - 1].0, calls[|calls| - 1].1, rGates)
  }

  /** One more call in each mode keeps the unrolled deferred circuit equal to the immediate one. */
  lemma ModesAgree(deferred: seq<Instr>, immediate: seq<Instr>, k: Kind, qubit: Qubit)
    requires Unroll(deferred) == immediate
    ensures Unroll(deferred + Emitted(k, qubit, false)) == immediate + Emitted(k, qubit, true)
  {
    UnrollAppend(deferred, [Placeholder(k, qubit)]);
    assert Unroll([Placeholder(k, qubit)]) == Expand(Placeholder(k, qubit)) + Unroll([]);
  }

  /** After any sequence of gate calls, the deferred circuit unrolls to the immediate one. */
  lemma {:induction false} BuildModesAgree(calls: seq<(Kind, Qubit)>)
    ensures Unroll(Build(calls, false)) == Build(calls, true)
  {
    if calls != [] {
      var last := calls[|calls| - 1];
      BuildModesAgree(calls[..|calls| - 1]);
      ModesAgree(Build(calls[..|calls| - 1], false), Build(calls[..|calls| - 1], true), last.0, last.1);
    }
  }
}
