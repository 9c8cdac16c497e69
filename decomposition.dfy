/**
 * The rewrite table: the fixed RX/RZ sequence each placeholder gate
 * defines on its one-qubit register q, the placeholder gate objects
 * that build that definition, and unrolling a circuit's placeholders.
 */
module Decomposition {
  import opened Wrappers
  import opened Instructions

  /** The qubit q[0] of the one-qubit register every definition is written over. */
  const Formal: Qubit := Qubit("q", 0)

  /** One instruction on q[0] with no classical bits. */
  function OnFormal(op: Op): Instr
  {
    Instr(op, [Formal], [])
  }

  /** I is rewritten as RZ(0). */
  function IRule(): (r: seq<Instr>)
    ensures |r| == 1 && OnlyRotations(r) && ActsOn(r, Formal)
  {
    [OnFormal(RZ(Zero))]
  }

  /** H is rewritten as RX(π/2) followed by RZ(π/2). */
  function HRule(): (r: seq<Instr>)
    ensures |r| == 2 && OnlyRotations(r) && ActsOn(r, Formal)
  {
    [OnFormal(RX(HalfPi)), OnFormal(RZ(HalfPi))]
  }

  /** X is rewritten as RZ(-π), RX(π), RZ(π). */
  function XRule(): (r: seq<Instr>)
    ensures |r| == 3 && OnlyRotations(r) && ActsOn(r, Formal)
  {
    [OnFormal(RZ(-Pi)), OnFormal(RX(Pi)), OnFormal(RZ(Pi))]
  }

  /** Y is rewritten as RZ(-π/2), RX(π), RZ(π/2). */
  function YRule(): (r: seq<Instr>)
    ensures |r| == 3 && OnlyRotations(r) && ActsOn(r, Formal)
  {
    [OnFormal(RZ(-HalfPi)), OnFormal(RX(Pi)), OnFormal(RZ(HalfPi))]
  }

  /** Z is rewritten as RZ(π). */
  function ZRule(): (r: seq<Instr>)
    ensures |r| == 1 && OnlyRotations(r) && ActsOn(r, Formal)
  {
    [OnFormal(RZ(Pi))]
  }

  /** The rule of each kind. */
  function Rule(k: Kind): (r: seq<Instr>)
    ensures 1 <= |r| <= 3 && OnlyRotations(r) && ActsOn(r, Formal)
  {
    match k
    case I => IRule()
    case H => HRule()
    case X => XRule()
    case Y => YRule()
    case Z => ZRule()
  }

  /** The rule of kind `k` with q[0] bound to the qubit `q` the gate is applied to. */
  function Expansion(k: Kind, q: Qubit): (r: seq<Instr>)
    ensures |r| == |Rule(k)| && OnlyRotations(r) && ActsOn(r, q)
    ensures forall i :: 0 <= i < |r| ==> r[i].op == Rule(k)[i].op
  {
    BindActsOn(Rule(k), Formal, q);
    Bind(Rule(k), Formal, q)
  }

  /** The single instruction recording a placeholder gate of kind `k` on `q`. */
  function Placeholder(k: Kind, q: Qubit): Instr
  {
    Instr(Named(k), [q], [])
  }

  /** What unrolling does to one instruction: a placeholder becomes its bound definition. */
  function Expand(x: Instr): seq<Instr>
  {
    match x.op
    case Named(k) => if |x.qargs| == 1 then Expansion(k, x.qargs[0]) else [x]
    case _ => [x]
  }

  /** A circuit with every placeholder replaced by its bound definition, in order. */
  function Unroll(s: seq<Instr>): seq<Instr>
  {
    if s == [] then [] else Expand(s[0]) + Unroll(s[1..])
  }

  /** Unrolling two circuits one after the other is unrolling their concatenation. */
  lemma {:induction false} UnrollAppend(a: seq<Instr>, b: seq<Instr>)
    ensures Unroll(a + b) == Unroll(a) + Unroll(b)
  {
    if a == [] {
      assert a + b == b;
    } else {
      assert (a + b)[0] == a[0] && (a + b)[1..] == a[1..] + b;
      UnrollAppend(a[1..], b);
    }
  }

  /** A well-formed circuit unrolls into RX and RZ only. */
  lemma {:induction false} UnrollRestricts(s: seq<Instr>)
    requires WellFormed(s)
    ensures OnlyRotations(Unroll(s))
  {
    if s != [] {
      assert WellFormed(s[1..]) by {
        forall i | 0 <= i < |s[1..]| ensures |s[1..][i].qargs| == 1 {
          assert s[1..][i] == s[i + 1];
        }
      }
      UnrollRestricts(s[1..]);
      assert |s[0].qargs| == 1;
      var e: seq<Instr> := Expand(s[0]);
      assert OnlyRotations(e);
      var r: seq<Instr> := Unroll(s[1..]);
      assert Unroll(s) == e + r;
      forall i | 0 <= i < |e + r| ensures (e + r)[i].op.IsRotation() {
        if i >= |e| { assert (e + r)[i] == r[i - |e|]; }
      }
    }
  }

  /** A circuit already written in RX and RZ is left as it is: unrolling it again changes nothing. */
  lemma {:induction false} UnrollFixesRotations(s: seq<Instr>)
    requires OnlyRotations(s)
    ensures Unroll(s) == s
  {
    if s != [] {
      assert OnlyRotations(s[1..]) by {
        forall i | 0 <= i < |s[1..]| ensures s[1..][i].op.IsRotation() {
          assert s[1..][i] == s[i + 1];
        }
      }
      UnrollFixesRotations(s[1..]);
      assert s[0].op.IsRotation();
      assert [s[0]] + s[1..] == s;
    }
  }

  /** Unrolling is idempotent on well-formed circuits. */
  lemma UnrollIdempotent(s: seq<Instr>)
    requires WellFormed(s)
    ensures Unroll(Unroll(s)) == Unroll(s)
  {
    UnrollRestricts(s);
    UnrollFixesRotations(Unroll(s));
  }

  /** Copies a rule into a fresh definition list, instruction by instruction and in order. */
  method BuildDefinition(rule: seq<Instr>) returns (definition: seq<Instr>)
    ensures definition == rule
  {
    definition := [];
    for i := 0 to |rule|
      invariant definition == rule[..i]
    {
      definition := definition + [rule[i]];
    }
  }

  /**
   * A placeholder gate: a named one-qubit gate with no parameters whose
   * definition, built on demand, is its kind's rule over q[0].
   */
  class PlaceholderGate {
    const kind: Kind
    var name: string
    var numQubits: nat
    var params: seq<Angle>
    var definition: Option<seq<Instr>>

    ghost predicate Valid()
      reads this
    {
      name == PlaceholderName(kind) && numQubits == 1 && params == [] &&
      (definition.Some? ==> definition.value == Rule(kind))
    }

    constructor QI()
      ensures Valid() && kind == I && name == "QI" && definition == None
    {
      kind, name, numQubits, params, definition := I, "QI", 1, [], None;
    }

    constructor QH()
      ensures Valid() && kind == H && name == "QH" && definition == None
    {
      kind, name, numQubits, params, definition := H, "QH", 1, [], None;
    }

    constructor QX()
      ensures Valid() && kind == X && name == "QX" && definition == None
    {
      kind, name, numQubits, params, definition := X, "QX", 1, [], None;
    }

    constructor QY()
      ensures Valid() && kind == Y && name == "QY" && definition == None
    {
      kind, name, numQubits, params, definition := Y, "QY", 1, [], None;
    }

    constructor QZ()
      ensures Valid() && kind == Z && name == "QZ" && definition == None
    {
      kind, name, numQubits, params, definition := Z, "QZ", 1, [], None;
    }

    /** The operation a circuit records when this gate is appended: same name, arity and parameters. */
    function Operation(): (op: Op)
      reads this
      requires Valid()
      ensures op.Name() == name && op.NumQubits() == numQubits && op.Params() == params
      ensures !op.IsRotation()
    {
      Named(kind)
    }

    /** Builds this gate's definition from its kind's rule. */
    method Define()
      requires Valid()
      modifies this`definition
      ensures Valid() && definition == Some(Rule(kind))
    {
      var rule := Rule(kind);
      var built := BuildDefinition(rule);
      definition := Some(built);
    }
  }
}
