/**
 * Circuit instructions as the gate table produces and consumes them:
 * an operation, the qubits it acts on and the classical bits it uses,
 * in the (gate, qargs, cargs) shape a circuit records.
 */
module Instructions {

  /** An angle, counted in multiples of π/2; the table only uses 0, ±π/2 and ±π. */
  type Angle = int

  const Zero: Angle := 0
  const HalfPi: Angle := 1
  const Pi: Angle := 2

  /** A qubit reference: a register name and an index into that register. */
  datatype Qubit = Qubit(register: string, index: nat)

  /** A classical-bit reference; every instruction here has none. */
  datatype Clbit = Clbit(register: string, index: nat)

  /** The five single-qubit gates the table rewrites. */
  datatype Kind = I | H | X | Y | Z

  /** The name a placeholder gate of kind `k` is registered under. */
  function PlaceholderName(k: Kind): (name: string)
    ensures |name| == 2 && name[0] == 'Q'
  {
    match k
    case I => "QI"
    case H => "QH"
    case X => "QX"
    case Y => "QY"
    case Z => "QZ"
  }

  /** The operation of an instruction: a rotation of the restricted alphabet, or a placeholder gate. */
  datatype Op = RX(theta: Angle) | RZ(phi: Angle) | Named(kind: Kind)
  {
    /** The gate's registered name. */
    function Name(): string
    {
      match this
      case RX(_) => "rx"
      case RZ(_) => "rz"
      case Named(k) => PlaceholderName(k)
    }

    /** Every operation here acts on one qubit. */
    function NumQubits(): nat { 1 }

    /** The gate's parameters: the angle of a rotation, none for a placeholder. */
    function Params(): seq<Angle>
    {
      match this
      case RX(theta) => [theta]
      case RZ(phi) => [phi]
      case Named(_) => []
    }

    predicate IsRotation() { RX? || RZ? }
  }

  datatype Instr = Instr(op: Op, qargs: seq<Qubit>, cargs: seq<Clbit>)

  /** Every instruction of `s` is an RX or an RZ. */
  predicate OnlyRotations(s: seq<Instr>)
  {
    forall i :: 0 <= i < |s| ==> s[i].op.IsRotation()
  }

  /** Every instruction of `s` acts on exactly the qubit `q` and on no classical bit. */
  predicate ActsOn(s: seq<Instr>, q: Qubit)
  {
    forall i :: 0 <= i < |s| ==> s[i].qargs == [q] && s[i].cargs == []
  }

  /** Every instruction of `s` names as many qubits as its operation acts on. */
  predicate WellFormed(s: seq<Instr>)
  {
    forall i :: 0 <= i < |s| ==> |s[i].qargs| == s[i].op.NumQubits()
  }

  /** `x` with every occurrence of the qubit `formal` replaced by `actual`. */
  function Rebind(x: Instr, formal: Qubit, actual: Qubit): Instr
  {
    Instr(x.op,
          seq(|x.qargs|, j requires 0 <= j < |x.qargs| =>
                if x.qargs[j] == formal then actual else x.qargs[j]),
          x.cargs)
  }

  /** Binds the formal qubit of a gate definition to the qubit the gate is applied to. */
  function Bind(s: seq<Instr>, formal: Qubit, actual: Qubit): (r: seq<Instr>)
    ensures |r| == |s|
    ensures forall i :: 0 <= i < |s| ==> r[i] == Rebind(s[i], formal, actual)
  {
    seq(|s|, i requires 0 <= i < |s| => Rebind(s[i], formal, actual))
  }

  /** Binding changes no operation and moves every instruction on `formal` onto `actual`. */
  lemma BindActsOn(s: seq<Instr>, formal: Qubit, actual: Qubit)
    requires ActsOn(s, formal)
    ensures ActsOn(Bind(s, formal, actual), actual)
    ensures OnlyRotations(Bind(s, formal, actual)) == OnlyRotations(s)
    ensures forall i :: 0 <= i < |s| ==> Bind(s, formal, actual)[i].op == s[i].op
  {
    var r := Bind(s, formal, actual);
    forall i | 0 <= i < |s|
      ensures r[i].qargs == [actual] && r[i].op == s[i].op
    {
      assert r[i].qargs[0] == actual;
    }
  }
}
