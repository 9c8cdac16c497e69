# QOSF Task 3 gate table, modelled in Dafny

This project models the single-qubit part of a small quantum-circuit compiler. The compiler rewrites five gates, I, H, X, Y and Z, into the restricted alphabet {RX, RZ}. The source file Task3/QOSF_FunctionsT3.py offers each rewrite in two modes:

- **Immediate expansion** (`RGates=True`). The gate functions `qi`, `qh`, `qx`, `qy` and `qz` append a fixed sequence of `rx`/`rz` calls to the circuit.
- **Placeholder registration** (the default, `RGates=False`). Each function appends one named gate instead: `QI`, `QH`, `QX`, `QY` or `QZ`. That gate's `_define` copies the same fixed rule, written over a one-qubit register `q`, into its `definition`.

## Files

- `wrappers.dfy`, module `Wrappers`: an `Option` type.
- `instructions.dfy`, module `Instructions`: the instruction shape used throughout.
  - Angles are integer multiples of π/2 (`Zero`, `HalfPi`, `Pi`).
  - Qubit and classical-bit references.
  - The gate kinds, and the operations `RX(θ)`, `RZ(φ)` and `Named(kind)`, each with the registered name, arity and parameters.
  - Binding a definition's formal qubit to the qubit the gate is applied to.
- `decomposition.dfy`, module `Decomposition`: the rewrite table.
  - The five rules over the formal qubit `q[0]`.
  - The placeholder gate class and the loop that copies a rule into its definition.
  - `Unroll`, a model-level unrolling that replaces every placeholder of a circuit by its bound definition.
- `circuits.dfy`, module `Circuits`: the gate functions and what they do to the circuit.
  - The append-only `Circuit` class.
  - The five gate functions, taking the circuit explicitly.
  - The agreement of the two modes, for one call and for any sequence of calls.
- `unitaries.dfy`, module `Unitaries`: exact matrices and the global-phase proofs.
  - The rotations used by the I, X, Y and Z rules are 2×2 monomial matrices whose entries are powers of ω = e^(iπ/4). `Mono` represents such a matrix exactly.
  - `MulIsMatrixProduct` proves that `Mul` is the textbook matrix product, entry by entry. `SameIsEntrywise` proves that `Same` is entrywise equality.
  - `EqualUpToPhaseIff` proves that `EqualUpToPhase` means equality after scaling by a power of ω. Between such matrices, that is the same as equality up to any global phase.

## Model

| member | source | states |
|---|---|---|
| `Decomposition.IRule` | Task3/QOSF_FunctionsT3.py:95-97 | I's rule is one rotation (RX or RZ) on q[0] and no classical bit; the body is RZ(0) |
| `Decomposition.HRule` | Task3/QOSF_FunctionsT3.py:115-118 | H's rule is two instructions, RX(π/2) then RZ(π/2), each on q[0] only |
| `Decomposition.XRule` | Task3/QOSF_FunctionsT3.py:137-141 | X's rule is three RX/RZ instructions on q[0] only: RZ(-π), RX(π), RZ(π) |
| `Decomposition.YRule` | Task3/QOSF_FunctionsT3.py:159-163 | Y's rule is three RX/RZ instructions on q[0] only: RZ(-π/2), RX(π), RZ(π/2) |
| `Decomposition.ZRule` | Task3/QOSF_FunctionsT3.py:182-184 | Z's rule is one rotation (RX or RZ) on q[0] only; the body is RZ(π) |
| `Decomposition.Expansion` | Task3/QOSF_FunctionsT3.py:94-97 | binding q[0] to the caller's qubit keeps the rule's length and operations, and makes every instruction act on exactly that qubit |
| `Decomposition.BuildDefinition` | Task3/QOSF_FunctionsT3.py:98-100 | the copying loop produces a definition equal to the rule, element by element and in order; the same loop appears at lines 119-121, 142-144, 164-166 and 185-187 |
| `Decomposition.PlaceholderGate.QI` | Task3/QOSF_FunctionsT3.py:85-87 | a new QIGate is named "QI", acts on one qubit, has no parameters and no definition yet |
| `Decomposition.PlaceholderGate.QH` | Task3/QOSF_FunctionsT3.py:105-107 | a new QHGate is named "QH", acts on one qubit, has no parameters and no definition yet |
| `Decomposition.PlaceholderGate.QX` | Task3/QOSF_FunctionsT3.py:127-129 | a new QXGate is named "QX", acts on one qubit, has no parameters and no definition yet |
| `Decomposition.PlaceholderGate.QY` | Task3/QOSF_FunctionsT3.py:149-151 | a new QYGate is named "QY", acts on one qubit, has no parameters and no definition yet |
| `Decomposition.PlaceholderGate.QZ` | Task3/QOSF_FunctionsT3.py:172-174 | a new QZGate is named "QZ", acts on one qubit, has no parameters and no definition yet |
| `Decomposition.PlaceholderGate.Operation` | Task3/QOSF_FunctionsT3.py:51 | the instruction a circuit records for a placeholder has the gate's name, arity (one qubit) and parameters (none), and is not a rotation |
| `Decomposition.PlaceholderGate.Define` | Task3/QOSF_FunctionsT3.py:89-100 | `_define` sets the gate's definition to exactly its kind's rule and changes no other field |
| `Decomposition.UnrollRestricts` | Task3/QOSF_FunctionsT3.py:9-11 | any well-formed circuit, placeholders included, unrolls into RX and RZ instructions only |
| `Decomposition.UnrollAppend` | Task3/QOSF_FunctionsT3.py:47-80 | unrolling distributes over concatenation, so each appended gate unrolls independently of the circuit before it |
| `Decomposition.UnrollFixesRotations` | Task3/QOSF_FunctionsT3.py:9-11 | a circuit already written in RX and RZ is unchanged by unrolling |
| `Decomposition.UnrollIdempotent` | Task3/QOSF_FunctionsT3.py:9-11 | unrolling twice gives the same circuit as unrolling once |
| `Circuits.Circuit.Append` | Task3/QOSF_FunctionsT3.py:51 | appending adds exactly one instruction at the end; the earlier instructions are unchanged |
| `Circuits.Circuit.Rx` | Task3/QOSF_FunctionsT3.py:55 | `rx(θ, qubit)` adds exactly RX(θ) on that qubit at the end |
| `Circuits.Circuit.Rz` | Task3/QOSF_FunctionsT3.py:49 | `rz(φ, qubit)` adds exactly RZ(φ) on that qubit at the end |
| `Circuits.Emitted` | Task3/QOSF_FunctionsT3.py:47-80 | with rGates a gate call adds only RX/RZ on the given qubit, as many as its rule has; without rGates it adds one instruction named after the placeholder, on that qubit, with no parameters |
| `Circuits.Qi` | Task3/QOSF_FunctionsT3.py:47-51 | with rGates the old circuit gains exactly RZ(0) on the qubit; otherwise it gains one QI placeholder on the qubit; in both cases the old instructions stay in front, and the immediate branch equals QIGate's rule with q[0] bound to the qubit |
| `Circuits.Qh` | Task3/QOSF_FunctionsT3.py:53-58 | with rGates the circuit gains exactly RX(π/2), RZ(π/2) on the qubit; otherwise one QH placeholder; the old instructions stay in front, and the immediate branch equals QHGate's rule bound to the qubit |
| `Circuits.Qx` | Task3/QOSF_FunctionsT3.py:60-66 | with rGates the circuit gains exactly RZ(-π), RX(π), RZ(π) on the qubit; otherwise one QX placeholder; the old instructions stay in front, and the immediate branch equals QXGate's rule bound to the qubit |
| `Circuits.Qy` | Task3/QOSF_FunctionsT3.py:68-74 | with rGates the circuit gains exactly RZ(-π/2), RX(π), RZ(π/2) on the qubit; otherwise one QY placeholder; the old instructions stay in front, and the immediate branch equals QYGate's rule bound to the qubit |
| `Circuits.Qz` | Task3/QOSF_FunctionsT3.py:76-80 | with rGates the circuit gains exactly RZ(π) on the qubit; otherwise one QZ placeholder; the old instructions stay in front, and the immediate branch equals QZGate's rule bound to the qubit |
| `Circuits.Apply` | Task3/QOSF_FunctionsT3.py:189-193 | calling the gate function attached for a kind appends exactly what that kind emits in the chosen mode |
| `Circuits.BothModes` | Task3/QOSF_FunctionsT3.py:47-80 | on fresh circuits, the placeholder mode records one placeholder. The returned gate of that kind holds, after `Define`, the returned definition, which is its kind's rule. Binding that definition to the placeholder's qubit gives exactly what the immediate mode appends. That sequence is RX/RZ only, on the given qubit |
| `Circuits.ModesAgree` | Task3/QOSF_FunctionsT3.py:47-80 | if a deferred circuit unrolls to an immediate one, appending the same gate call in each mode keeps that true |
| `Circuits.BuildModesAgree` | Task3/QOSF_FunctionsT3.py:47-80 | after any sequence of gate calls, each on a single qubit, the circuit built with placeholders unrolls to exactly the circuit built with immediate expansion |
| `Unitaries.QIGateIsI` | Task3/QOSF_FunctionsT3.py:83 | RZ(0) on any qubit is the identity matrix |
| `Unitaries.QXGateIsX` | Task3/QOSF_FunctionsT3.py:125 | RZ(-π), RX(π), RZ(π), applied in that order, is i·X |
| `Unitaries.QYGateIsY` | Task3/QOSF_FunctionsT3.py:147 | RZ(-π/2), RX(π), RZ(π/2), applied in that order, is -i·Y |
| `Unitaries.QZGateIsZ` | Task3/QOSF_FunctionsT3.py:170 | RZ(π) is -i·Z |
| `Unitaries.QHGateOutsideModel` | Task3/QOSF_FunctionsT3.py:103 | the H rule starts with RX(π/2), which has no exact monomial matrix, so the model assigns it no unitary |
| `Unitaries.ExpansionMatchesGate` | Task3/QOSF_FunctionsT3.py:9-11 | for I, X, Y and Z, and only for them, the expansion has an exact unitary, and it equals the named gate up to a global phase |

## Left out

- Qiskit's own classes are not modelled: `Gate`, `QuantumRegister`, `QuantumCircuit`, and the `RXGate`/`RZGate` objects. `Circuit` is an append-only list of instructions with `append`, `rx` and `rz`.
- How Qiskit consumes `definition` when it unrolls or transpiles is not modelled. `Unroll` is a model-level stand-in that binds each placeholder's rule to its qubit.
- Qiskit's lazy `definition` property is not modelled. A new gate has no definition (`None`) until `Define` runs.
- Monkey-patching `QuantumCircuit` (lines 189-193) is replaced by free methods that take the circuit explicitly, plus the `Apply` dispatch.
- Python default arguments are not modelled. `RGates` defaults to `False` in the source; Dafny callers pass `rGates` explicitly.
- The unused `q=None` keyword, the `label` argument and the unused imports (numpy, `OneQubitEulerDecomposer`, `Qubit`) are not modelled.
- Floating-point `pi` is not modelled. Angles are exact integer multiples of π/2.
- `Circuits.Circuit.Append` requires as many qubits as the operation acts on. Qiskit raises an error otherwise, and that error path is not modelled. Every call in this file passes a one-element qubit list to a one-qubit gate.
- The qubit argument is an abstract reference, `Qubit(register, index)`. How Qiskit resolves an integer index to a circuit qubit is not modelled.
- `Unitaries.QHGateOutsideModel`: H gets no matrix-equivalence proof. RX(π/2) has entries ±1/√2, which the exact monomial model cannot represent. The two-step rule RX(π/2) then RZ(π/2) equals H·S† up to a global phase, not H. So the doc comments at lines 103 and 111 overstate it, and only the rule's exact sequence is verified.
- The header comment (lines 7-8 and 31) lists RX, RY, RZ, CNOT and CZ as input gates, but the file defines no rule for them, so none is modelled.
- Gate calls take a single qubit. Register or list arguments, and Qiskit's broadcasting of `append`, `rx` and `rz` over them, are not modelled. For such an argument the two modes agree only up to the order of instructions on different qubits: immediate expansion interleaves the rotations qubit by qubit per step, while the placeholders unroll one whole rule per qubit.
