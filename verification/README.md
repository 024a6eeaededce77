# A verified model of the Clifford+rotation compiler and the Duostra mapper

This Dafny project models four parts of the quantum-circuit compiler in `src/` and proves them correct.

**Tableaux.** A Pauli product is a string of letters with a sign (`PauliAlgebra`), stored by the program as a bit array that gates flip in place (`PauliProducts`). Clifford operators act on products by conjugation (`CliffordOps`); a stabilizer tableau is the list of images of the generators (`CliffordTableaux`, `StabilizerTableaux`). Two synthesizers turn a tableau back into gates (`AGSynthesis`, `HOptSynthesis`, with the GF(2) rank of the X-block in `StabilizerRank`). Programs that mix Cliffords and Pauli rotations get a meaning in `ProgramSemantics`: two programs are `Equivalent` when they send every Pauli observable to the same combination of observables, for all functions `cos`, `sin` that obey the angle-sum laws and the values at a quarter turn (the usual functions do; phases count in units of pi). Every rewriting and every synthesis is proved to keep this meaning: `PauliRotations`, `RotationDiagonalization`, `TableauOptimization`, `TableauProperization`, `Tableaux`, the passes over whole tableaux in `TableauPasses`, `DiagonalCircuits`, `GraySynth`, `MstSynthesis` (with the effect of a tree of CX on the number of ones in `ParityTrees`) and `TableauToQcir`. In the other direction, `QcirToTableau` and `ControlledTurns` model the expansion of multi-controlled phases and rotations and `CircuitToTableau` the translation of whole circuits, which is right exactly for the gates that are no controlled rotations. `DiagonalPhases` connects this meaning with phases of basis states: lists of diagonal rotations are equivalent exactly when their phase functions agree up to full turns.

**Duostra.** `TimedReplay` defines what a list of timed operations on physical qubits does: swaps move logical qubits, every other operation is recorded on the logical qubits it acts on. `Devices`, `RoutingSearch`, `SearchOrder` and `Routers` model the device, the bidirectional search, the order it goes in, and the traceback; `LeastRoutes` proves when the search finds the earliest arrivals, `SharpTimes` that no operation waits without reason; `CircuitTopologies` the frontier of available gates with its trimmed table; `Schedulers` the naive and the random scheduler and the final sort, with the history of their choices in `PickingOrder`; `Duostra` the whole mapping down to the physical circuit, and `MappingMeaning` what the physical gates do to Pauli products; `CheckerReadings`, `CheckerPlans` and `MappingCheckers` the independent checker, which accepts a circuit if and only if there is a plan for it, and so everything the mapper produces from the same placement (`SwapPurposes` is the reason: the mapper never swaps two qubits that wait for the same gate, which the checker would take for the gate); `Placers` the initial placements; `MappingFlow` the command that puts all of it together; `ShortestPaths` the all-pairs shortest paths of the device.

**Circuits.** `Circuits`, `TopologicalOrder` and `QCirs` model the circuit object: per-qubit doubly linked chains, changed pin by pin, and the two-phase depth-first search that lists the gates.

**CZ extraction.** `CzExtraction` models the reduction of a graph of CZ gates by shared neighbours.

Loops and objects of the program are methods with loops and classes here; each is proved against a specification on values, and the theorems are lemmas about those specifications. `Sequences` holds facts about sequences and sets.

Places where the code does something other than its comments suggest:

- A gate appended to a `Tableau` that holds no Clifford sub-tableau is lost (`src/tableau/tableau.cpp:15-58`): it conjugates the rotations and ends up nowhere. `Tableaux.GateIsLost` shows it on a tableau of one rotation, and `Tableaux.GateKeptIffClifford` that for every tableau the gate is kept if and only if some sub-tableau is a Clifford. In `implement_mcp` this does no harm: the two plane changes then meet in front of the program and cancel (`QcirToTableau.ImplementMcp`).
- `Phase::normalize` announces a range from 0 to 2 pi; it computes the representative in (-pi, pi], which is what the model uses.
- A controlled rotation is translated wrongly (`src/convert/qcir_to_tableau.cpp:63-79`): `implement_mcr` selects from all operands, the target among them, so all selections but the full one cancel in pairs, and a single rotation about Z on all qubits remains. `ControlledTurns.TurnRightIff` proves that what is pushed is a controlled rotation if and only if there is no control or the angle is zero, and `CircuitToTableau.DoneIffRight` the same for its meaning. `CircuitToTableau.ToTableau` says what any circuit becomes, and that a circuit without such gates keeps its meaning.
- The check at the end of `Duostra::map` asks the placer again (`src/duostra/duostra.cpp:109-113`, `src/duostra/mapping_eqv_checker.cpp:33-36`): after a random placement, or with the device's own placement, it may start from a placement other than the one the circuit was mapped from and reject a correct result. `OtherPlacements.AcceptsAllIffSame` proves that the checker accepts everything that is right from one placement if and only if it starts from that placement: wherever two placements differ, a single gate is enough (`OtherPlacements.OtherPlacementRejected`). `MappingFlow.Map` says which placement the checker starts from, the answer of the placer, so a caller can compare the two before the call.
- The router marks the neighbours of both operands before anything is taken from its queue (`src/duostra/router.cpp:206-215`) and never gives a marked vertex a cheaper predecessor, so a busy operand can claim a qubit which the other operand would reach earlier. `LeastRoutes.LeastIffReadyTogether` proves that the search finds the earliest arrivals if and only if the second operand becomes free at most a swap after the first; `LeastRoutes.LineIsNotLeast` gives the device and the times for every other case.
- `MappingEquivalenceChecker::check` returns true with logical gates left over and only warns; the model proves what is true then, and what is true in addition when nothing is left.

## Model

| member | source | states |
|---|---|---|
| PauliAlgebra.HomomorphismH | src/tableau/pauli_rotation.cpp:202-209 | conjugation by h respects the signed product of any two products of equal length, including the factor of i dropped when they anticommute |
| PauliAlgebra.HomomorphismS | src/tableau/pauli_rotation.cpp:211-218 | the same for s |
| PauliAlgebra.HomomorphismCX | src/tableau/pauli_rotation.cpp:220-231 | the same for cx on different qubits |
| PauliAlgebra.AnticommutesIsParity | src/tableau/pauli_rotation.cpp:68-77 | two products anticommute exactly when the power of i of their product is odd |
| PauliAlgebra.AnticommutesXor | src/tableau/pauli_rotation.cpp:233-240 | the commutation test is additive: a product anticommutes with a product of two exactly when it anticommutes with one of them |
| PauliAlgebra.MulTwice | src/tableau/pauli_rotation.cpp:133-145 | multiplying twice by the same product gives the other factor back, with the sign flipped exactly when the two anticommute |
| PauliProducts.DecodedDetermines | src/tableau/pauli_rotation.hpp:192-192 | the bit array is a faithful representation: equal products have equal bits |
| PauliProducts.PauliProduct.H | src/tableau/pauli_rotation.cpp:202-209 | flipping bits in place computes the conjugation by h; qubits out of range change nothing |
| PauliProducts.PauliProduct.S | src/tableau/pauli_rotation.cpp:211-218 | the same for s |
| PauliProducts.PauliProduct.CX | src/tableau/pauli_rotation.cpp:220-231 | the same for cx |
| PauliProducts.PauliProduct.Apply | src/tableau/pauli_rotation.hpp:108-150 | every one of the twelve operators, applied through h, s and cx, computes its conjugation; `CliffordOps.OneQubitTable`, `TwoQubitTable` and `SwapForm` say letter by letter what that is |
| PauliProducts.PauliProduct.MultiplyBy | src/tableau/pauli_rotation.cpp:133-145 | the in-place product is the signed product, although the power of i is counted in eight bits, and also when a product is multiplied by itself |
| PauliProducts.PauliProduct.CountPower | src/tableau/pauli_rotation.cpp:136-139 | the eight-bit counter keeps the power of i modulo 4 |
| PauliProducts.PauliProduct.IsCommutative | src/tableau/pauli_rotation.cpp:233-240 | the loop over the bits decides commutation |
| CliffordOps.ExpandConj | src/tableau/pauli_rotation.hpp:99-108 | the derived operators act like their strings of h, s and cx |
| CliffordOps.OneQubitTable | src/tableau/pauli_rotation.hpp:112-119 | the letter table: what each of the eight one-qubit operators makes of I, X, Y and Z, signs included |
| CliffordOps.TwoQubitTable | src/tableau/pauli_rotation.hpp:119-121 | the letter table of cx, cz, swap and ecr, as combinations on the two qubits with the sign |
| CliffordOps.SwapForm | src/tableau/pauli_rotation.hpp:120-120 | a swap exchanges the letters of its two qubits and changes no sign |
| CliffordOps.HomomorphismAll | src/tableau/pauli_rotation.cpp:133-145 | conjugation by any string of operators respects the signed product and commutation |
| CliffordOps.AdjointCancels | src/tableau/pauli_rotation.hpp:57-71 | every operator followed by what adjoint makes of it acts as the identity, ecr included |
| CliffordTableaux.AdjointAllCancels | src/tableau/pauli_rotation.hpp:85-96 | the reversed string of adjoints undoes any operator string on every product |
| CliffordTableaux.SymplecticPreserved | src/tableau/stabilizer_tableau.cpp:44-60 | every operator string keeps the relations: stabilizer i and destabilizer j anticommute exactly for i = j, all other rows commute |
| CliffordTableaux.IdentitySymplectic | src/tableau/stabilizer_tableau.hpp:24-29 | the identity tableau satisfies the relations |
| CliffordTableaux.TableauDetermines | src/tableau/stabilizer_tableau.hpp:84-86 | circuits with equal tableaux act alike on every signed product |
| CliffordTableaux.PrependHIsFirst | src/tableau/stabilizer_tableau.cpp:62-66 | prepending h gives the tableau of h followed by the circuit |
| CliffordTableaux.PrependSIsFirst | src/tableau/stabilizer_tableau.cpp:68-72 | the same for s |
| CliffordTableaux.PrependCXIsFirst | src/tableau/stabilizer_tableau.cpp:74-79 | the same for cx |
| CliffordTableaux.PrependIsFirst | src/tableau/stabilizer_tableau.cpp:81-147 | for all twelve operators the prepend script gives the tableau of the operator followed by the circuit |
| StabilizerTableaux.StabilizerTableau.Apply | src/tableau/pauli_rotation.hpp:110-142 | applying an operator conjugates every row by it |
| StabilizerTableaux.StabilizerTableau.ApplyAll | src/tableau/pauli_rotation.hpp:144-149 | applying a string conjugates every row by the whole string |
| StabilizerTableaux.StabilizerTableau.PrependCXGate | src/tableau/stabilizer_tableau.cpp:74-79 | overwriting the two rows in place turns the tableau of any circuit into that of the cx followed by the circuit |
| StabilizerTableaux.StabilizerTableau.Prepend | src/tableau/stabilizer_tableau.cpp:117-147 | on the tableau of any circuit, prepending gives the tableau of the operator followed by that circuit |
| StabilizerTableaux.DiagonalPreserved | src/tableau/stabilizer_tableau.cpp:363-369 | s, cx, x and z keep stabilizers without x-bits free of them |
| AGSynthesis.MakeDestabXMainDiag | src/tableau/stabilizer_tableau.cpp:191-217 | keeps the finished rows and sets the x-bit of destabilizer k on qubit k; the search always finds a letter |
| AGSynthesis.MakeDestabXOffDiag | src/tableau/stabilizer_tableau.cpp:219-244 | reduces destabilizer k to X on qubit k and keeps the finished rows |
| AGSynthesis.MakeStabZOffDiag | src/tableau/stabilizer_tableau.cpp:246-274 | reduces stabilizer k to Z on qubit k without spoiling destabilizer k: one more pair is finished |
| AGSynthesis.FixSigns | src/tableau/stabilizer_tableau.cpp:285-292 | x and z repair all signs: the copy is the identity tableau |
| AGSynthesis.ReduceQubit | src/tableau/stabilizer_tableau.cpp:276-281 | step k uses h, s and cx on qubit k and later ones only, one h if the destabilizer has no x at all, and two if the stabilizer still has one; afterwards one more pair is reduced |
| AGSynthesis.Synthesize | src/tableau/stabilizer_tableau.cpp:163-297 | round trip: for every tableau that satisfies the relations the emitted operators applied to the identity give exactly this tableau, signs included; without x-bits in the stabilizers no h is emitted; the string undoes one step for every qubit in turn and the gates for the signs |
| StabilizerRank.RankIsLargest | src/tableau/stabilizer_tableau.hpp:122-129 | the rank is the size of a largest set of stabilizers whose x-parts are independent over GF(2) |
| StabilizerRank.HFreeKeepsRank | src/tableau/stabilizer_tableau.hpp:122-129 | no operator other than h changes the rank of the X-block |
| StabilizerRank.HRank | src/tableau/stabilizer_tableau.hpp:122-129 | one h lowers the rank by at most one |
| StabilizerRank.HRankBack | src/tableau/stabilizer_tableau.hpp:122-129 | one h raises the rank by at most one |
| StabilizerRank.RankBoundsHCount | src/tableau/stabilizer_tableau.hpp:122-129 | every circuit has at least as many h as its tableau has rank |
| StabilizerRank.PivotLowersRank | src/tableau/stabilizer_tableau.cpp:354-358 | the h emitted for a stabilizer with a single x-bit lowers the rank by exactly one |
| HOptSynthesis.ClearStar | src/tableau/stabilizer_tableau.cpp:339-343 | in star mode the x-bits of stabilizer i are cleared but for the first, by one cx from that qubit for each other one; the stabilizers before it stay diagonal |
| HOptSynthesis.ClearStaircase | src/tableau/stabilizer_tableau.cpp:345-352 | in staircase mode the same, by cx between neighbours from the last pair up |
| HOptSynthesis.ClearStabilizer | src/tableau/stabilizer_tableau.cpp:330-359 | one more stabilizer is diagonal, rank plus emitted h stay the same in sum, and what is emitted is the ladder of the mode, an s if needed and one h |
| HOptSynthesis.Synthesize | src/tableau/stabilizer_tableau.cpp:311-376 | round trip in both modes, the number of h emitted is the rank of the stabilizers' X-block, and the string is the h-free one of the diagonal rest followed by the ladders of the chosen mode undone |
| HOptSynthesis.HCountOptimal | src/tableau/stabilizer_tableau.hpp:122-129 | no circuit over h and h-free operators with the same tableau uses fewer h than this rank |
| ProgramSemantics.FuseRotations | src/tableau/tableau_optimization.cpp:231-234 | two rotations about one axis are one by the sum of the phases |
| ProgramSemantics.DropRotation | src/tableau/tableau_optimization.cpp:163-173 | a rotation by zero or about the identity does nothing |
| ProgramSemantics.SwapRotations | src/tableau/tableau_optimization.cpp:230-231 | adjacent commuting rotations can be exchanged |
| ProgramSemantics.NegateAxis | src/tableau/pauli_rotation.hpp:312-317 | a rotation about the negated axis is the rotation by the negated phase |
| ProgramSemantics.PushThroughGates | src/tableau/tableau.cpp:15-58 | a rotation moves past any Clifford circuit, which conjugates its axis |
| ProgramSemantics.SameTableauSameMeaning | src/tableau/stabilizer_tableau.hpp:84-86 | circuits with equal tableaux have equal meaning |
| ProgramSemantics.QuarterTurnIsS | src/tableau/tableau_optimization.cpp:260-261 | a quarter turn about Z is the gate s |
| PauliRotations.NormalizeUnique | src/util/phase.hpp:239-243 | the normal form of a phase is the only representative in (-1, 1] |
| PauliRotations.NormalizeRotation | src/util/phase.hpp:239-243 | normalizing a phase does not change the rotation |
| PauliRotations.ConjRotationSnoc | src/tableau/pauli_rotation.cpp:256-272 | normalizing the sign after every gate gives the same rotation as normalizing once at the end |
| PauliRotations.PushRotations | src/tableau/tableau_optimization.cpp:121-125 | a list of rotations moves past a Clifford circuit, every rotation conjugated by it |
| PauliRotations.AdjointIsInverse | src/tableau/pauli_rotation.hpp:85-96 | a circuit followed by its adjoint means nothing |
| RotationDiagonalization.ExtractCliffordOperators | src/tableau/pauli_rotation.cpp:274-296 | the emitted operators take every positive non-identity axis to +Z on the returned qubit, with one h for every X of the axis |
| RotationDiagonalization.NaiveSynthesize | src/convert/tableau_to_qcir.cpp:99-123 | diagonalizing, a phase gate and the adjoint operators, rotation by rotation in their order, have the meaning of the list; there is one phase gate for each rotation and twice as many h as the axes have X |
| TableauOptimization.KeptMeaning | src/tableau/tableau_optimization.cpp:163-173 | removing identities keeps the meaning |
| TableauOptimization.MergeMeaning | src/tableau/tableau_optimization.cpp:229-235 | adding the phase of a later equal axis across commuting rotations keeps the meaning |
| TableauOptimization.RotationList.MergeInto | src/tableau/tableau_optimization.cpp:228-236 | the inner loop keeps the meaning; if nothing is merged every equal axis behind is separated by an anticommuting one |
| TableauOptimization.RotationList.MergeRotations | src/tableau/tableau_optimization.cpp:226-240 | merging keeps the meaning, never lengthens the list and leaves no trivial rotation; if the length stays, nothing changed and equal axes are separated |
| TableauOptimization.ConjugationView.Apply | src/tableau/tableau_optimization.cpp:54-89 | an operator on the view conjugates the Clifford and exactly the first rotations |
| TableauOptimization.QuarterTurnConjugates | src/tableau/tableau_optimization.cpp:258-272 | absorbing a quarter turn about P takes Q to P*Q if they anticommute and keeps it otherwise |
| TableauOptimization.AbsorbMeaning | src/tableau/tableau_optimization.cpp:254-272 | replacing one Clifford-angled rotation by operators on the Clifford and the earlier rotations keeps the meaning |
| TableauOptimization.AbsorbCliffordRotations | src/tableau/tableau_optimization.cpp:248-277 | absorbing all of them keeps the meaning; if the list does not get shorter it is unchanged and holds no Clifford angle |
| TableauProperization.SplitPhase | src/tableau/tableau_optimization.cpp:289-303 | taking quarter turns off ends, with a proper rest and a complement that is one of the Clifford angles or zero |
| TableauProperization.SplitRotation | src/tableau/tableau_optimization.cpp:298-302 | a rotation is its complement followed by its rest |
| TableauProperization.ProperMeaning | src/tableau/tableau_optimization.cpp:305-322 | absorbing the complement of one rotation keeps the meaning |
| TableauProperization.Properize | src/tableau/tableau_optimization.cpp:285-326 | the meaning is kept and every remaining rotation is proper and not trivial |
| TableauPasses.WithoutIdleMeaning | src/tableau/tableau_optimization.cpp:188-198 | erasing identity Cliffords and empty lists keeps the program and all rotations |
| TableauPasses.MergeCliffords | src/tableau/tableau_optimization.cpp:200-208 | moving Cliffords into the ones before them, pair by pair, keeps the program and all rotations |
| TableauPasses.RemoveIdentities | src/tableau/tableau_optimization.cpp:180-219 | the meaning is kept; the rotations left are exactly those that are not trivial, in their order; no sub-tableau is an identity or empty |
| TableauPasses.JoinNeighbours | src/tableau/tableau_optimization.cpp:337-356 | joining neighbours of one kind keeps the program and all rotations and leaves a Clifford in front of every list |
| TableauPasses.ProperizeTableau | src/tableau/tableau_optimization.cpp:328-374 | the meaning is kept, no rotation turns by a quarter or more or is trivial, and there are not more than before |
| Tableaux.CollapsedMeaning | src/tableau/tableau_optimization.cpp:98-156 | any sequence of sub-tableaux means one Clifford, the composition of all, followed by the rotations, each conjugated by exactly the Cliffords behind it, in order |
| Tableaux.Tableau.PushCliffords | src/tableau/tableau_optimization.cpp:112-127 | the reverse loop leaves the total Clifford in front and every rotation pushed |
| Tableaux.Tableau.Collapse | src/tableau/tableau_optimization.cpp:98-156 | the result is exactly the total Clifford and at most one list with all pushed rotations, and means the same |
| Tableaux.Tableau.MergeRotations | src/tableau/tableau_optimization.cpp:384-399 | the fixpoint loop ends, keeps the meaning, and leaves no trivial or Clifford-angled rotation and no two equal axes without an anticommuting one between |
| Tableaux.Tableau.ApplyGate | src/tableau/tableau.cpp:15-58 | the gate is pushed back through the rotations into the last Clifford; without one it ends up in front of the program |
| Tableaux.AppendedMeaning | src/tableau/tableau.cpp:15-58 | for every valid tableau: with a Clifford the appended gate comes after the program, without one in front of the conjugated program |
| Tableaux.GateKeptIffClifford | src/tableau/tableau.cpp:15-58 | for every valid tableau, the result of appending h, s or cx means the program followed by the gate if and only if the tableau holds a Clifford |
| Tableaux.GateIsLost | src/tableau/tableau.cpp:15-26 | a tableau of one rotation about Z: appending h gives the rotation about X, which is not the program followed by h |
| Tableaux.RotationsInverse | src/tableau/tableau.cpp:64-69 | the reversed list with negated phases inverts the list from both sides |
| Tableaux.Tableau.AdjointInPlace | src/tableau/tableau.cpp:79-82 | the adjoint program inverts the program from both sides |
| Tableaux.AdjointTableau | src/tableau/stabilizer_tableau.cpp:156-158 | adjoint of a tableau is the tableau of the adjoint of every circuit that has the tableau |
| Tableaux.AdjointTableauInverts | src/tableau/stabilizer_tableau.cpp:156-158 | a circuit for the adjoint tableau inverts from both sides, signs included |
| DiagonalCircuits.MeansCX | src/convert/tableau_to_qcir.cpp:173-182 | one more CX and re-expressing the remaining rotations keep the meaning of circuit and rest, and the circuit consists of the CX so far and one phase gate for every rotation emitted |
| DiagonalCircuits.MeansPhase | src/convert/tableau_to_qcir.cpp:317-326 | a phase gate on qubit t emits the rotation whose current form is Z on t |
| DiagonalCircuits.UndoesCX | src/convert/tableau_to_qcir.cpp:358-365 | the circuit synthesized from the prepended CXs undoes the linear map |
| DiagonalCircuits.Finish | src/convert/tableau_to_qcir.cpp:358-368 | the finished circuit means the emitted rotations, starts with the gates so far, has one phase gate for each of them and no h at all |
| DiagonalCircuits.OrderIrrelevant | src/convert/tableau_to_qcir.cpp:301-356 | diagonal rotations may be emitted in any order |
| GraySynth.PairDependsCX | src/convert/tableau_to_qcir.cpp:190-202 | in the common order of all staircases, rows outside a qubit filter stay functions of higher rows inside it under every CX of a staircase |
| GraySynth.GetControlRows | src/convert/tableau_to_qcir.cpp:139-159 | exactly the other qubits set in all rotations of the filter, in rising order |
| GraySynth.GetCofactorRow | src/convert/tableau_to_qcir.cpp:213-233 | the last qubit with the most ones, or the first one with the fewest when it has more zeros than that |
| GraySynth.Split | src/convert/tableau_to_qcir.cpp:335-346 | the rotations with and without the bit, none lost, in their order |
| GraySynth.Synthesizer.ApplyStar | src/convert/tableau_to_qcir.cpp:185-189 | the CXs, one from every control row to the target, clear exactly the control rows in the rotations of the entry and keep all waiting entries in order |
| GraySynth.Synthesizer.ApplyStaircase | src/convert/tableau_to_qcir.cpp:190-201 | in staircase mode the CXs climb the control rows in the common order, with the same effect, because all staircases share that order |
| GraySynth.Synthesizer.Leaf | src/convert/tableau_to_qcir.cpp:316-328 | at an empty qubit filter every rotation of the entry is Z on the target and is emitted once |
| GraySynth.Synthesizer.Branch | src/convert/tableau_to_qcir.cpp:330-355 | splitting an entry on its cofactor row, after the CXs of the mode for its control rows, keeps the invariant and shrinks the qubit filter |
| GraySynth.Synthesizer.Run | src/convert/tableau_to_qcir.cpp:301-356 | the stack loop ends, emits every rotation exactly once, and is a run in which every entry has been cleared, emitted or split by the rules |
| GraySynth.Synthesize | src/convert/tableau_to_qcir.cpp:253-368 | for every list that is not empty: rejected if and only if some rotation is not diagonal; otherwise the circuit means the rotations, in both modes and for every order of the qubits; it has one phase gate for each rotation and no h, and starts with the gates of such a run in the chosen mode and order |
| MstSynthesis.PreOrder | src/convert/tableau_to_qcir.cpp:496-510 | the traversal lists every vertex of a spanning arborescence once, parents first |
| MstSynthesis.BestRotation | src/convert/tableau_to_qcir.cpp:386-397 | the first of the rotations with the fewest ones |
| ParityTrees.OnesAfterCX | src/convert/tableau_to_qcir.cpp:432-443 | a CX changes the number of ones in all rotations by the distance of its two qubits less the ones of its control |
| ParityTrees.TreeStep | src/convert/tableau_to_qcir.cpp:512-524 | in post-order every CX of a tree finds its two columns as they were at the beginning, so the ones change by exactly the weight of its edge, whatever else the tree does |
| MstSynthesis.Synthesizer.SynthesizeOne | src/convert/tableau_to_qcir.cpp:512-529 | post-order CXs collect the parity on the root, where one phase gate emits the rotation; in all other rotations every vertex has taken up the parity of its predecessor, and the ones, those of the rotation itself included, have changed by the total weight of the tree, so a lightest tree leaves the fewest |
| MstSynthesis.Synthesizer.SynthesizeBest | src/convert/tableau_to_qcir.cpp:484-532 | one round takes the first rotation with the fewest ones out, the last one filling its place, and synthesizes it along the tree chosen for it and the others |
| MstSynthesis.Synthesize | src/convert/tableau_to_qcir.cpp:449-544 | rejected if and only if some rotation is not diagonal; otherwise the circuit means the rotations, for every choice of spanning arborescences; it starts with such rounds that use up all rotations, has one phase gate for each and no h |
| TableauToQcir.SynthesizeClifford | src/convert/tableau_to_qcir.cpp:87-97 | the string of a Clifford has its tableau and is made by the strategy asked for: by elimination qubit by qubit, or with exactly as many h as the rank of the X-block and in the given mode |
| TableauToQcir.SynthesizeRotations | src/convert/tableau_to_qcir.cpp:632-636 | fails exactly for non-diagonal lists under the diagonal strategies, else means the list, with one phase gate for every rotation, and is made by the strategy asked for |
| TableauToQcir.SubToQcir | src/convert/tableau_to_qcir.cpp:645-681 | the part for one sub-tableau has its meaning, its number of phase gates and, with the h-optimal strategy, its number of h |
| TableauToQcir.ToQcir | src/convert/tableau_to_qcir.cpp:645-681 | fails exactly when some list is rejected; otherwise the circuit means the tableau, consists of one part for every sub-tableau made by its strategy, has one phase gate for every rotation, and with the h-optimal strategy as many h as the ranks of the Cliffords and the basis changes of naive lists |
| DiagonalPhases.ParityIsForm | src/tableau/pauli_rotation.cpp:233-240 | a diagonal product anticommutes with a product exactly when its parity on the x-bits of that product is odd |
| DiagonalPhases.MulProduct | src/tableau/pauli_rotation.cpp:133-145 | multiplying by the product of two commuting factors is multiplying by both, with a sign exactly when both anticommute with the first factor |
| DiagonalPhases.EigenExpect | src/convert/qcir_to_tableau.cpp:109-124 | on the component of a basis state every list of diagonal rotations acts as one turn by the difference of two of its phases |
| DiagonalPhases.SamePhasesSameMeaning | src/convert/qcir_to_tableau.cpp:109-124 | lists of diagonal rotations that give every basis state the same phase up to full turns have the same meaning |
| DiagonalPhases.MeaningIsPhase | src/convert/qcir_to_tableau.cpp:109-124 | the meaning of diagonal rotations is their phase function: two lists are equivalent if and only if they give every basis state the same phase up to full turns |
| QcirToTableau.ParityOfZ | src/convert/qcir_to_tableau.cpp:116-121 | the Z product on a set of qubits measures the parity of exactly their bits |
| QcirToTableau.AlternatingTotal | src/convert/qcir_to_tableau.cpp:109-112 | the alternating sum of parities over all subsets vanishes unless all bits are set, and is a power of two then |
| QcirToTableau.McpPhase | src/convert/qcir_to_tableau.cpp:95-124 | the rotations pushed for a multi-controlled phase add the phase exactly when all bits are set, up to full turns |
| QcirToTableau.McpAddsPhase | src/convert/qcir_to_tableau.cpp:90-124 | the same in terms of the operands before they are sorted |
| QcirToTableau.PlaneChange | src/convert/qcir_to_tableau.cpp:100-105 | the plane change replaces Z on the target by X or Y and changes no sign |
| QcirToTableau.AllSelections | src/convert/qcir_to_tableau.cpp:109-112 | the selections of all sizes from m qubits are as many as a power of two |
| QcirToTableau.ImplementMcp | src/convert/qcir_to_tableau.cpp:90-133 | the program gets exactly the rotations of the expansion, one for every non-empty selection of the operands, in the plane of the target, for every tableau with at least one sub-tableau |
| QcirToTableau.McpMeaning | src/convert/qcir_to_tableau.cpp:90-133 | the expansion means the multi-controlled phase: a list of diagonal rotations is equivalent to it if and only if it gives the phase to exactly the basis states in which all operands are set, up to full turns |
| ControlledTurns.ParityWithTarget | src/convert/qcir_to_tableau.cpp:70-77 | Z on a selection and the target measures the parity of the target and the rest of the selection |
| ControlledTurns.TurnPhase | src/convert/qcir_to_tableau.cpp:63-79 | what is pushed for a rotation turns by its share, up to sign, exactly where the parity of all its qubits is odd |
| ControlledTurns.RightTurnIsRight | src/convert/qcir_to_tableau.cpp:44-88 | the list that would be right: it turns the target by the angle exactly where all controls are set |
| ControlledTurns.TurnRightIff | src/convert/qcir_to_tableau.cpp:44-88 | what is pushed turns as a controlled rotation if and only if there is no control or the angle is zero |
| CircuitToTableau.PhaseMeaning | src/convert/qcir_to_tableau.cpp:258-299 | the meaning of a phase gate in any plane: a list of diagonal rotations between the plane changes is equivalent to it if and only if it gives the phase where all operands are set |
| CircuitToTableau.RotateMeaning | src/convert/qcir_to_tableau.cpp:258-299 | the same for rotation gates, which turn the target where all controls are set |
| CircuitToTableau.SingleMeaning | src/convert/qcir_to_tableau.cpp:162-255 | without controls both are one rotation about the axis |
| CircuitToTableau.DoneIffRight | src/convert/qcir_to_tableau.cpp:258-299 | what is made of a gate has its meaning if and only if the gate is no controlled rotation by an angle that is not zero |
| CircuitToTableau.CZIsTurns | src/convert/qcir_to_tableau.cpp:280-286 | the operator cz is the expansion of a controlled half turn |
| CircuitToTableau.ShortcutMeaning | src/convert/qcir_to_tableau.cpp:162-288 | the Clifford operators applied for quarter and half turns and for controlled Pauli gates mean the gate |
| CircuitToTableau.ImplementMcr | src/convert/qcir_to_tableau.cpp:44-88 | the program gets exactly the rotations pushed, in the plane of the target, and as many as for a phase |
| CircuitToTableau.AppendGate | src/convert/qcir_to_tableau.cpp:139-301 | only gates of unknown kinds are refused; any other gate adds what is made of it to the program: no rotation for quarter and half turns of one qubit, controlled Pauli gates and fixed gates, else one for every non-empty selection of its qubits |
| CircuitToTableau.ToTableau | src/convert/qcir_to_tableau.cpp:305-319 | refused if and only if some gate is of unknown kind; otherwise the tableau means what is made of the gates one after the other, and the circuit itself if it has no controlled rotations by an angle that is not zero; it holds exactly the rotations of the gates that are not Clifford |
| Circuits.AfterSetSucc | src/qcir/qcir.cpp:155-160 | setting a successor changes this one link and no other |
| Circuits.LinkedLast | src/qcir/qcir.cpp:294-302 | linking behind the last gate lengthens the chain of that qubit and leaves the others alone |
| Circuits.LinkedFirst | src/qcir/qcir.cpp:320-328 | linking before the first gate likewise |
| Circuits.Unlinked | src/qcir/qcir.cpp:354-369 | linking the neighbours of a gate to each other takes exactly this gate out of the chain |
| QCirs.QCir.Append | src/qcir/qcir.cpp:281-305 | keeps all chains and the forward order; the gate is last on each of its qubits |
| QCirs.QCir.Prepend | src/qcir/qcir.cpp:307-331 | keeps all chains and the forward order; the gate is first on each of its qubits |
| QCirs.QCir.RemoveGate | src/qcir/qcir.cpp:348-375 | exactly this gate leaves its chains; false and no change if it does not exist |
| QCirs.QCir.AdjointInplace | src/qcir/qcir_action.cpp:136-153 | on every qubit the gates come in reverse order, each with its kind inverted; every chain is reversed |
| QCirs.AdjointTwice | src/qcir/qcir_action.cpp:136-153 | the adjoint of the adjoint is the circuit itself, links and ends included |
| QCirs.QCir.Dfs | src/qcir/qcir_action.cpp:65-105 | the search lists every gate exactly once, on each qubit in the order of its chain |
| QCirs.QCir.GetGates | src/qcir/qcir.hpp:106-109 | the cached list is a topological order of the present circuit |
| QCirs.QCir.Compose | src/qcir/qcir_action.cpp:28-36 | on every qubit the gates are the own ones followed by those of the other circuit, also for a circuit composed with itself |
| TopologicalOrder.TopIsReady | src/qcir/qcir_action.cpp:79-85 | when a gate comes up for the second time, all its successors have been listed |
| TopologicalOrder.SearchEnds | src/qcir/qcir_action.cpp:102-104 | at the end the reversed list is a topological order |
| TopologicalOrder.ListIsTopological | src/qcir/qcir.hpp:101-105 | a list of all gates in which chains rise lists on each qubit exactly its chain |
| TimedReplay.DisjointSteps | src/duostra/router.cpp:397-400 | operations on different qubits commute in the replay |
| TimedReplay.SortedReplay | src/duostra/scheduler.cpp:64-69 | every permutation sorted by start time, ties in any order, replays like the original list if operations on one qubit do not overlap |
| TimedReplay.SortedIsSpaced | src/duostra/scheduler.cpp:64-69 | and its operations on one qubit follow each other without overlap |
| TimedReplay.SortByStart | src/duostra/router.cpp:398-400 | a permutation sorted by start time |
| Devices.Device.ApplyGate | src/device/device.cpp:304-321 | a swap exchanges the logical qubits, and placement and occupied times become those of the replay |
| Devices.Device.ResetAll | src/duostra/router.cpp:247-251 | marks are cleared, placement and times stay |
| RoutingSearch.QueueNotEmpty | src/duostra/router.cpp:217-220 | on a connected device the queue is never empty before the fronts meet |
| RoutingSearch.MarkOne | src/duostra/router.cpp:331-335 | marking a neighbour keeps the predecessor chains and queues every vertex at most once |
| RoutingSearch.PopCheapest | src/duostra/router.cpp:218-220 | the cheapest queued vertex, the one with the smallest number among equals |
| SearchOrder.StepKeepsOrder | src/duostra/router.cpp:217-243 | a step of the search keeps its order: no vertex waits that should have been taken before a taken one, every vertex is reached from its first taken neighbour, and only the last one may touch the other side |
| SearchOrder.NewlyMarked | src/duostra/router.cpp:331-335 | what a vertex marks waits behind it |
| Routers.PathsDisjoint | src/duostra/router.cpp:371-396 | the two predecessor chains have no vertex in common |
| Routers.CanonicalRun | src/duostra/router.cpp:353-406 | swaps of both chains followed by the gate can run one after the other and execute the gate on the logical qubits of the two sources, in the order of the gate |
| Routers.CanonicalCoupled | src/duostra/router.cpp:376-396 | all of them are on coupled qubits and last their delay |
| Routers.CanonicalSharp | src/duostra/router.cpp:371-396 | every swap and the gate start at the moment one of their qubits becomes free |
| SharpTimes.SharpGrows | src/duostra/scheduler.cpp:173-174 | routed one after the other on the device as it then is, the operations of all gates leave no idle time either |
| Routers.Router.TouchAdjacency | src/duostra/router.cpp:313-338 | all neighbours are marked from this vertex and queued, or the first one taken by the other side is reported |
| Routers.Router.Search | src/duostra/router.cpp:200-243 | the search ends with two coupled vertices, one taken from each side: at once if the sources are coupled, else it has taken the cheapest vertex every time, by number among equals, reached every vertex from its first taken neighbour, and stopped at the first contact |
| LeastRoutes.SearchIsLeast | src/duostra/router.cpp:180-243 | if the second operand becomes free at most a swap after the first, no chain of swaps from either operand arrives at a vertex before the search does |
| LeastRoutes.LineIsNotLeast | src/duostra/router.cpp:206-215 | if it becomes free later than that, on a line of four qubits every search is late: the qubit beside the busy operand waits for it although the other operand would be there before |
| LeastRoutes.LeastIffReadyTogether | src/duostra/router.cpp:180-243 | for all devices: the search reaches its vertices at the earliest times if and only if the second operand becomes free at most a swap after the first |
| Routers.Router.Traceback | src/duostra/router.cpp:353-407 | the sorted operations are the swaps of both chains and the gate, execute exactly the gate, on coupled qubits and without overlap, and the device ends as they say |
| Routers.Router.DuostraRouting | src/duostra/router.cpp:180-253 | routing executes exactly the gate on its operands in their order, whichever source goes first; the operand that is free earlier goes first, among equals by the rule on ties; the operations are those of such a search, and each starts at the moment one of its qubits becomes free |
| Routers.Router.ExecuteSingle | src/duostra/router.cpp:160-168 | a one-qubit gate starts when its qubit is free and ends one delay later |
| Routers.Router.AssignGate | src/duostra/router.cpp:415-437 | every logical gate is executed exactly, the table of physical qubits stays the inverse of the placement, and no swap exchanges two logical qubits that wait for the same gate if only the operands wait for this one; the operations are those of a search from the operands' places, or the gate alone |
| Routers.CanonicalPurposeful | src/duostra/router.cpp:376-396 | every swap of the two chains exchanges an operand with a logical qubit that is no operand |
| SwapPurposes.SortedPurposeful | src/duostra/router.cpp:398-400 | sorting operations that are kept apart by start time leaves no swap without purpose |
| Routers.Router.IsExecutable | src/duostra/router.cpp:142-150 | true exactly for one-qubit gates and operands on coupled qubits |
| CircuitTopologies.TrimmingIsInvisible | src/duostra/circuit_topology.cpp:19-28 | for a gate that is not executed the trimmed table answers like the full set of executed gates |
| CircuitTopologies.TrimmedTableOk | src/duostra/circuit_topology.cpp:70-80 | after counting and trimming the table holds exactly the executed gates with unexecuted successors (or none at all), with their counts |
| CircuitTopologies.FrontierNotEmpty | src/duostra/scheduler.cpp:240-241 | until all gates are executed some gate is available |
| CircuitTopologies.ExecutedMoves | src/duostra/circuit_topology.cpp:58-68 | an available gate is the next one on each of its qubits, and executing it advances exactly these |
| CircuitTopologies.CircuitTopology.constructor | src/duostra/circuit_topology.cpp:37-42 | the initial list holds the gates without predecessors in rising order |
| CircuitTopologies.CircuitTopology.UpdateAvailableGates | src/duostra/circuit_topology.cpp:58-81 | the list of available gates stays exactly the set of unexecuted gates whose predecessors are executed; the executed gate leaves it and the gates it releases line up behind in the order of its qubits |
| Schedulers.LogGrows | src/duostra/scheduler.cpp:165-178 | executing an available gate appends its event to the records of exactly its operands |
| Schedulers.ProgressGrows | src/duostra/scheduler.cpp:173-174 | appending the operations of one gate keeps the whole list executable without overlap |
| Schedulers.AvailableIsAwaited | src/duostra/circuit_topology.cpp:58-68 | an available gate comes next on its operands, so no other logical qubit waits for what they wait for |
| Schedulers.SortedSimulates | src/duostra/scheduler.cpp:64-69 | sorting keeps the simulation |
| Schedulers.Scheduler.GetExecutableGate | src/duostra/scheduler.cpp:111-118 | some if and only if some available gate can run now, and then the first such one |
| PickingOrder.HistoryGrows | src/duostra/scheduler.cpp:165-178 | every pick found the list and the device as the picks before had left them |
| Schedulers.Scheduler.RouteOneGate | src/duostra/scheduler.cpp:165-178 | one more gate of the circuit is executed and recorded; returns the latest end |
| Schedulers.Scheduler.AssignNaiveAndSort | src/duostra/scheduler.cpp:234-250 | every gate is executed exactly once, in dependency order, on the right operands in the right order, on coupled qubits, without overlap on any physical qubit; no swap exchanges two logical qubits that wait for the same gate; every time the first executable gate was picked, or the first available one if none was; each operation starts at the moment one of its qubits becomes free |
| Schedulers.Scheduler.AssignRandomAndSort | src/duostra/scheduler.cpp:197-215 | the same for arbitrary random choices, each gate picked being the one the random number says |
| Duostra.BuildCircuitByResult | src/duostra/duostra.cpp:151-172 | on every physical qubit the circuit is the expansion of the operations, swaps as three CX |
| Duostra.DelayOfGates | src/device/device.cpp:51-61 | an operation takes as long as the gates it becomes: one unit for a gate on one qubit, two for a gate on two, six for a swap, as for its three CX |
| MappingMeaning.SwapMovesData | src/duostra/duostra.cpp:157-164 | the three gates built for a swap exchange the letters of the two qubits in every product, which is what the replay does to the labels |
| Duostra.RouteAndBuild | src/duostra/duostra.cpp:71-95 | for both schedulers: from a circuit to a physical circuit that is the expansion of operations simulating it; they are the operations of a run that picks gates by the rule of the scheduler and routes each on the device as it then is |
| MappingMeaning.ReplayMeans | src/duostra/duostra.cpp:151-172 | the gates built from any operations conjugate products as placed like the replayed logical gates conjugate the logical products |
| MappingMeaning.SameTraceSameConj | src/qcir/qcir_action.cpp:65-105 | Clifford circuits with the same gates in the same order on every qubit conjugate every product alike, whatever topological order they are read in |
| MappingMeaning.MappingMeans | src/duostra/duostra.cpp:71-172 | a mapped Clifford circuit means the logical one: read in any topological order it does to every product, as placed at the beginning, what the logical circuit does, as placed at the end |
| Placers.DfsDevice | src/duostra/placer.cpp:109-138 | the recursive search lists every marked qubit once, every qubit it has marked has only marked neighbours, and the result depends on nothing but the couplings and the marks it starts with |
| Placers.FromReaches | src/duostra/placer.cpp:109-138 | the list of a search starts with its qubit and every later one is coupled to an earlier one |
| Placers.Place | src/duostra/placer.cpp:60-99 | every placer gives every logical qubit a physical qubit of its own; the search covers every connected device; asked again, only the random placer answers differently |
| Placers.PlaceOn | src/device/device.cpp:342-347 | afterwards the labels of the device are the inverse of the assignment, and nothing else has changed |
| MappingFlow.OperationsTyped | src/duostra/duostra.cpp:151-172 | operations that simulate a circuit have as many qubits as the gates of their kind |
| MappingFlow.Map | src/duostra/duostra.cpp:51-133 | refused if and only if the circuit has more qubits than the device or the checker, if asked for, rejects the result; otherwise the physical circuit is the expansion of operations that simulate the logical one from the placement of the device or of the placer; the checker starts from the placer's next answer, accepts exactly if there is a plan from there, and leaves no gate over if that is the placement mapped from, so with the identity and the search placer, or a device that is placed as the placer would place it, the only reason for a refusal is the number of qubits |
| OtherPlacements.OtherPlacementRejected | src/duostra/mapping_eqv_checker.cpp:33-36 | wherever two placements put different logical qubits, a circuit of one gate that is right from the first one is explained by no plan from the second one |
| OtherPlacements.AcceptsAllIffSame | src/duostra/mapping_eqv_checker.cpp:33-73 | for all devices and placements: the checker accepts from the second placement whatever is right from the first one if and only if the two are the same |
| CheckerReadings.ListedIsNext | src/duostra/mapping_eqv_checker.cpp:54-57 | a gate reached in topological order and not part of a swap is next on its qubits |
| CheckerReadings.SwapPassed | src/duostra/mapping_eqv_checker.cpp:124-137 | three CX in a row are read as one swap of the placement |
| MappingCheckers.MappingEquivalenceChecker.ExecuteSingle | src/duostra/mapping_eqv_checker.cpp:146-169 | accepted exactly when the next logical gate of the qubit is this gate |
| MappingCheckers.MappingEquivalenceChecker.ExecuteDouble | src/duostra/mapping_eqv_checker.cpp:178-214 | accepted exactly when it is the next logical gate of both qubits, operands in order, on coupled qubits |
| MappingCheckers.MappingEquivalenceChecker.IsSwap | src/duostra/mapping_eqv_checker.cpp:82-114 | accepted if and only if three CX in a row start here, to and fro on two qubits, and the two logical qubits do not both wait for the same CX |
| MappingCheckers.MappingEquivalenceChecker.CheckGate | src/duostra/mapping_eqv_checker.cpp:58-67 | goes on if and only if the gate starts a swap on coupled qubits or is the next logical gate of its qubits, and says which operation has been read |
| CheckerPlans.SameNext | src/duostra/mapping_eqv_checker.cpp:182-185 | if the next gate of either of two qubits is on both, both have the same next gate |
| CheckerPlans.GateWaits | src/duostra/mapping_eqv_checker.cpp:178-200 | a gate at the head of what is left of a plan is the dependency of all its logical qubits |
| CheckerPlans.SwapStarts | src/duostra/mapping_eqv_checker.cpp:82-103 | a swap at the head of what is left of a plan shows as three CX in a row in the circuit |
| CheckerPlans.PlanGoesOn | src/duostra/mapping_eqv_checker.cpp:49-73 | at any gate a topological order can come to, the checker goes on as long as a plan is left, and the operation it reads can be moved to the front of that plan |
| MappingCheckers.MappingEquivalenceChecker.Check | src/duostra/mapping_eqv_checker.cpp:49-73 | if it returns true, all physical gates have been read as the expansion of a plan; for every plan it returns true and arrives where the plan ends |
| CheckerReadings.CutIsClosed | src/duostra/mapping_eqv_checker.cpp:222-228 | the logical gates passed are closed under predecessors |
| MappingCheckers.CheckMapping | src/duostra/mapping_eqv_checker.cpp:32-73 | accepted if and only if the circuit is the expansion of operations on coupled qubits that execute the logical circuit up to some place on every qubit, no swap exchanging two logical qubits that wait for the same CX; nothing remains if and only if such operations execute all of it; what was passed is closed under predecessors |
| CheckerPlans.SimulationRealizes | src/duostra/duostra.cpp:109-116 | operations that simulate a circuit by swaps with a purpose are a plan for all of it, whatever their times |
| ShortestPaths.RelaxedIsExact | src/device/device.cpp:169-172 | relaxing through k keeps entries exact for routes with one more inner vertex, sentinel included |
| ShortestPaths.ReachableIsNear | src/device/device.hpp:140-140 | reachable qubits are fewer steps apart than there are qubits, so the sentinel is out of reach |
| ShortestPaths.Topology.FloydWarshall | src/device/device.cpp:162-187 | the in-place triple loop solves all pairs |
| ShortestPaths.Topology.DistancesAreRight | src/device/device.cpp:162-187 | for at most 100000 qubits an entry is the hop distance, and the sentinel exactly for unreachable pairs |
| ShortestPaths.Topology.PredecessorsAreCloser | src/device/device.cpp:169-172 | every predecessor entry is a neighbour one hop closer |
| ShortestPaths.Topology.GetPath | src/device/device.cpp:377-389 | following the predecessors ends and gives a shortest path over couplings |
| CzExtraction.RemoveEdge | src/extractor/extract.cpp:266-269 | clearing an edge takes its product out of the quadratic form and one edge out of the count |
| CzExtraction.GroupCZ | src/extractor/extract.cpp:264-270 | between the two CXs one CZ stands for both edges of a common neighbour |
| CzExtraction.PrependedEmits | src/extractor/extract.cpp:959-963 | prepending the gates one by one, which reverses them, adds the same form |
| CzExtraction.Extractor.MaxOverlap | src/extractor/greedy_elimination.cpp:110-140 | the first pair of rows with the most common columns; the row with more ones comes first, the upper one among equals |
| CzExtraction.Extractor.Combine | src/extractor/extract.cpp:261-271 | a group is a CX, one CZ for every common column and the CX again; it adds the form of the edges it removes and leaves all bits as they are, and exactly the common columns of the two rows are gone |
| CzExtraction.Extractor.ReduceCzs | src/extractor/extract.cpp:257-275 | the reduction takes out the best pair every time until no two rows share more than two columns; gates plus edges plus saved gates stay the same in sum |
| CzExtraction.Extractor.ExtractCzs | src/extractor/extract.cpp:246-287 | the gates add exactly the quadratic form of the matrix and keep all bits, and there are as many as edges less the saved ones; with the reduction they start with the groups of such a reduction, without it there is none, and all others are CZ |

## Left out

- `stop_requested()` is taken to be false everywhere.
- Phases are real numbers modulo 2 (in units of pi); the source's bounded integer fractions and their overflow are not modelled.
- A tableau's rows and the sub-tableaux of a program are values in the objects that hold them; `PauliProducts.PauliProduct` shows in-place flipping for a single row, sharing of rows between objects is not modelled.
- Operators out of range and two-qubit operators with equal qubits are modelled for single products and tableaux, but the theorems on circuits ask for operators in range.
- Rotations about the identity are excluded where the source expects a letter (`GraySynth`, `MstSynthesis`, `ExtractCliffordOperators`), and empty lists in the diagonal strategies, which read the first rotation (`src/convert/tableau_to_qcir.cpp:255`, `451`) before they ask for the number of rotations; `merge_rotations` can leave such a list, `remove_identities` erases it.
- At the last rotation `get_parity_graph` reads the front of an empty list (`src/convert/tableau_to_qcir.cpp:420`); the number of qubits it asks for there is taken to be right.
- `minimum_spanning_arborescence` is not part of this model; `MstSynthesis.Synthesize` holds for every spanning arborescence of the support, so that the tree is a lightest one is not stated; that the weight of the tree is what it costs is (`ParityTrees.TreeStep`).
- The phase-polynomial strategy, Todd and the internal-Hadamard pass are not part of this model.
- The translation of circuits used as gates, and the gate translation tables. A circuit is translated as its list of gates.
- Operations are names in circuits; which names are inverse to each other is a parameter of `QCirs.QCir.AdjointInplace`.
- `insert_qubit`, `remove_qubit`, `tensor_product`, `concat` and gate times of circuits.
- Gates with repeated or no qubits are excluded from circuits.
- Logical swap gates: the device takes them for swaps of the router and exchanges the labels as well (`src/device/device.cpp:309-314`), so the theorems on the mapper ask for circuits without them. Gate numbers must be 0 to m-1, as the source's frontier assumes.
- The shortest-path router, the base scheduler, which does not look at availability, and the costs by which the greedy and the search scheduler choose among available gates: `Schedulers.Scheduler.AssignRandomAndSort` holds for every sequence of choices, so for theirs.
- Partial placements: every physical qubit carries a logical one. Occupied times start at any value.
- The checker in reverse direction.
- `get_final_cost` and other statistics of a mapping.
- Extraction from ZX graphs: the matrix of edges is an input of `CzExtraction`, qubits are numbered by its rows.
- `find_minimal_sums` and `greedy_reduction`.
