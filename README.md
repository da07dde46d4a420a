# mrsim2d agent bookkeeping, in Dafny

A model of the control core of the mrsim2d 2-D modular-robot simulator. It
covers what agents and tasks do between the physics steps, plus the small
value types they use. The physics engine is outside the model.

- **Self-assembling agent** (`NumSelfAssemblyVSR`, `AbstractSelfAssemblyVSR`).
  - The controller sizes, `nOfInputs` and `nOfOutputs`.
  - Assembly: creating the unit voxels one `CreateVoxel` at a time.
  - The per-tick `act`, in three steps. It reads the last outcomes into the
    input rows with a cursor. It clips each brain's outputs into [-1,1].
    It emits the actions in a fixed layout: senses, actuations, per-side
    attach/detach requests with the 0.25 deadband, then per-side,
    per-channel NFC emit/sense pairs.
- **Grid agent** (`NumGridVSR`).
  - At construction, the input and output grids.
  - Per tick: the guarded cursor read over the cells in key order, the
    timed function's entries set into the output grid, then the sense
    actions and one unclipped actuation per voxel.
- **Actions and voxels**: `SenseSideAttachment`, `ActuateVoxel`,
  `AddAndTranslateAgent`, and the `Voxel` side/vertex tables and materials.
- **Tasks and outcomes**.
  - `Locomotion.run`: the placement arithmetic, then the
    `while (t < duration)` tick/record loop.
  - `BalancingOutcome`: the averages and the sub-outcome.
- **`Path`**, and the inner-layer sizing inside `TimedRealFunctionBuilder.mlp`.

The engine is a class (`Engines.Engine`). It keeps the time and a history of
performed actions and ticks. Each of its answers is a fixed function of that
history, supplied when the engine is built: an action's outcome, an agent's
bounding box, an agent's polygons, and the time after a tick. A tick advances
the time by at least a positive `minStep`, so the locomotion loop ends.

The model is stateful where the source is stateful:
- the agents are classes, with their buffers as arrays;
- `act`, `assemble` and `run` are methods with loops;
- each method is proved against a specification function, and the lemmas
  give those functions their meaning.

Two quirks of the source are kept as written:
- The self-assembling agent's input rows have width
  `nOfInputs(sensors.size(), nSignals)`, counting sensor lists, while the
  dimension check uses `sensors.get(0).size()`. The two agree only when
  the numbers are equal (`SelfAssemblyAgent.InputWidthAgainstCheck`); the
  model sizes the rows as the source does.
- A non-`Sense` outcome at the cursor is neither consumed nor written.
  Every later slot of the row then meets the same outcome
  (`InputReading.StuckRow`).

## Model

| member | source | states |
|---|---|---|
| Ranges.Clip | io.github.ericmedvet.mrsim2d.core/src/main/java/io/github/ericmedvet/mrsim2d/core/agents/selfassemblyvsr/NumSelfAssemblyVSR.java:115 | the clipped value lies in the range, equals the input inside it and the nearer bound outside it |
| Ranges.DenormalizeNormalize | io.github.ericmedvet.mrsim2d.core/src/main/java/io/github/ericmedvet/mrsim2d/core/agents/selfassemblyvsr/NumSelfAssemblyVSR.java:103 | normalising into [0,1] and denormalising back gives the input clipped to the range |
| Voxels.SideIndex | io.github.ericmedvet.mrsim2d.core/src/main/java/io/github/ericmedvet/mrsim2d/core/bodies/Voxel.java:13-17 | each side has a position in the enum order N, E, W, S and that position holds the side |
| Voxels.Vertex1 | io.github.ericmedvet.mrsim2d.core/src/main/java/io/github/ericmedvet/mrsim2d/core/bodies/Voxel.java:14-17 | the first vertex of a side is a corner on that side's edge of the square |
| Voxels.Vertex2 | io.github.ericmedvet.mrsim2d.core/src/main/java/io/github/ericmedvet/mrsim2d/core/bodies/Voxel.java:14-17 | the second vertex is the other corner on the same edge |
| Voxels.NormalQuarterTurns | io.github.ericmedvet.mrsim2d.core/src/main/java/io/github/ericmedvet/mrsim2d/core/bodies/Voxel.java:14-17 | the normal angle lies in (-pi, pi] and points out of the square towards exactly the two corners of the side's edge |
| Voxels.SideVerticesDistinct | io.github.ericmedvet.mrsim2d.core/src/main/java/io/github/ericmedvet/mrsim2d/core/bodies/Voxel.java:14-17 | the two vertices of every side differ |
| Voxels.EveryVertexOnTwoSides | io.github.ericmedvet.mrsim2d.core/src/main/java/io/github/ericmedvet/mrsim2d/core/bodies/Voxel.java:13-41 | every vertex bounds exactly two sides: NW is on N and W, NE on N and E, SE on E and S, SW on W and S |
| Voxels.NormalAnglesDistinct | io.github.ericmedvet.mrsim2d.core/src/main/java/io/github/ericmedvet/mrsim2d/core/bodies/Voxel.java:14-17 | the normal angles (in quarter turns N=1, E=0, W=2, S=-1) of distinct sides differ, and opposite sides are half a turn apart |
| Voxels.MaterialWithDelta | io.github.ericmedvet.mrsim2d.core/src/main/java/io/github/ericmedvet/mrsim2d/core/bodies/Voxel.java:47-49 | Material(softness, delta) keeps the softness and has the area-ratio range [1-abs(delta), 1+abs(delta)], which holds 1 |
| Voxels.MaterialDeltaSign | io.github.ericmedvet.mrsim2d.core/src/main/java/io/github/ericmedvet/mrsim2d/core/bodies/Voxel.java:47-49 | delta and -delta give the same material |
| Voxels.DefaultMaterial | io.github.ericmedvet.mrsim2d.core/src/main/java/io/github/ericmedvet/mrsim2d/core/bodies/Voxel.java:44-53 | the default area-ratio range holds 1 |
| Voxels.DefaultMaterialHasDelta | io.github.ericmedvet.mrsim2d.core/src/main/java/io/github/ericmedvet/mrsim2d/core/bodies/Voxel.java:44-53 | the default material (softness 0.75, range [0.8, 1.2]) is the material with delta 0.2, and with delta -0.2 |
| Voxels.SideSegment | io.github.ericmedvet.mrsim2d.core/src/main/java/io/github/ericmedvet/mrsim2d/core/bodies/Voxel.java:62-64 | side(s) runs from the voxel's vertex1 of s to its vertex2 of s |
| Voxels.AdjacentSidesMeet | io.github.ericmedvet.mrsim2d.core/src/main/java/io/github/ericmedvet/mrsim2d/core/bodies/Voxel.java:62-64 | a vertex is an endpoint of the segment of each of the two sides it bounds |
| Actions.Range | io.github.ericmedvet.mrsim2d.core/src/main/java/io/github/ericmedvet/mrsim2d/core/actions/ActuateVoxel.java:45-48 | an actuation's range is [-1,1]; a side-attachment sense's range is [0,1] |
| Actions.ActuateEach | io.github.ericmedvet.mrsim2d.core/src/main/java/io/github/ericmedvet/mrsim2d/core/actions/ActuateVoxel.java:34-43 | the four-value actuation has exactly the keys N, E, S, W, mapped in argument order n, e, s, w |
| Actions.Actuate | io.github.ericmedvet.mrsim2d.core/src/main/java/io/github/ericmedvet/mrsim2d/core/actions/ActuateVoxel.java:30-32 | the one-value actuation maps all four sides, and only them, to the same value |
| Actions.ActuateKeepsValue | io.github.ericmedvet.mrsim2d.core/src/main/java/io/github/ericmedvet/mrsim2d/core/actions/ActuateVoxel.java:30-48 | the value is stored unclipped: it lies outside the actuation range exactly when it is below -1 or above 1 |
| Actions.SensedOrZero | io.github.ericmedvet.mrsim2d.core/src/main/java/io/github/ericmedvet/mrsim2d/core/agents/selfassemblyvsr/NumSelfAssemblyVSR.java:103 | an absent outcome reads as 0, a real outcome as its value |
| Actions.ToShort | io.github.ericmedvet.mrsim2d.core/src/main/java/io/github/ericmedvet/mrsim2d/core/agents/selfassemblyvsr/NumSelfAssemblyVSR.java:154 | the (short) cast of the channel: the result is a 16-bit value congruent to the input modulo 65536, and equal to it when it fits |
| SideAttachment.AttachedMembers | src/main/java/it/units/erallab/mrsim/core/actions/SenseSideAttachment.java:42-45 | a body is among the flattened attached anchorables exactly when some anchor on the side is anchored to it |
| SideAttachment.CountAnchoredTo | src/main/java/it/units/erallab/mrsim/core/actions/SenseSideAttachment.java:50 | the count of anchors anchored to a body is at most the number of anchors |
| SideAttachment.CountIsAllExactly | src/main/java/it/units/erallab/mrsim/core/actions/SenseSideAttachment.java:49-54 | the count equals the number of anchors exactly when every anchor is anchored to that body |
| SideAttachment.MaxCount | src/main/java/it/units/erallab/mrsim/core/actions/SenseSideAttachment.java:49-52 | the maximum over the candidates is at least every candidate's count, is reached by one of them, is at most the number of anchors, and is 0 with no candidate |
| SideAttachment.Perform | src/main/java/it/units/erallab/mrsim/core/actions/SenseSideAttachment.java:35-55 | the sensed value lies in the sense's range [0,1], and is 0 when the side has no anchor or no anchor is attached to anything |
| SideAttachment.PerformIsLargestFraction | src/main/java/it/units/erallab/mrsim/core/actions/SenseSideAttachment.java:49-54 | otherwise the value is the count of some attached body over the number of anchors, and no attached body has a larger fraction |
| SideAttachment.OneBodyOnAllIsFull | src/main/java/it/units/erallab/mrsim/core/actions/SenseSideAttachment.java:49-54 | one body anchored by every anchor of a non-empty side gives 1 |
| SideAttachment.FullIsOneBodyOnAll | src/main/java/it/units/erallab/mrsim/core/actions/SenseSideAttachment.java:49-54 | a value of 1 means the side has anchors and one body is anchored by all of them |
| SideAttachment.FullyAttached | src/main/java/it/units/erallab/mrsim/core/actions/SenseSideAttachment.java:49-54 | both directions together: 1 exactly when the side has anchors all anchored to one body |
| AddAndTranslate.Perform | io.github.ericmedvet.mrsim2d.core/src/main/java/io/github/ericmedvet/mrsim2d/core/actions/AddAndTranslateAgent.java:33-42 | AddAgent(agent) is issued for the caller; with no agent outcome the result is the 'Undoable addition' error and nothing else is issued; otherwise exactly one TranslateAgent of the added agent by the unchanged translation follows and the added agent is returned |
| InputReading.Scaled | io.github.ericmedvet.mrsim2d.core/src/main/java/io/github/ericmedvet/mrsim2d/core/agents/selfassemblyvsr/NumSelfAssemblyVSR.java:103 | a sensed value rescaled to the input range lies in [-1,1] |
| InputReading.AbsentReadsAsZero | io.github.ericmedvet.mrsim2d.core/src/main/java/io/github/ericmedvet/mrsim2d/core/agents/selfassemblyvsr/NumSelfAssemblyVSR.java:103 | an absent outcome is read as 0 before rescaling: 0 for a [-1,1] sense, -1 for a [0,1] sense |
| InputReading.ReadRow | io.github.ericmedvet.mrsim2d.core/src/main/java/io/github/ericmedvet/mrsim2d/core/agents/selfassemblyvsr/NumSelfAssemblyVSR.java:97-106 | reading a row keeps its length |
| InputReading.ReadRowMeaning | io.github.ericmedvet.mrsim2d.core/src/main/java/io/github/ericmedvet/mrsim2d/core/agents/selfassemblyvsr/NumSelfAssemblyVSR.java:97-106 | the cursor moves by one per Sense outcome consumed, each consumed outcome fills the next slot with its rescaled value, later slots keep their value, the read fails exactly when the outcomes run out first, and otherwise stops only at a non-Sense outcome |
| InputReading.StuckRow | io.github.ericmedvet.mrsim2d.core/src/main/java/io/github/ericmedvet/mrsim2d/core/agents/selfassemblyvsr/NumSelfAssemblyVSR.java:98-105 | a non-Sense outcome at the cursor is not consumed and no slot of the row changes |
| InputReading.RowNeverFails | io.github.ericmedvet.mrsim2d.core/src/main/java/io/github/ericmedvet/mrsim2d/core/agents/selfassemblyvsr/NumSelfAssemblyVSR.java:96-107 | with at least one outcome per remaining slot the row read does not fail |
| InputReading.ReadRows | io.github.ericmedvet.mrsim2d.core/src/main/java/io/github/ericmedvet/mrsim2d/core/agents/selfassemblyvsr/NumSelfAssemblyVSR.java:95-107 | reading all rows keeps the number of rows and each row's length |
| InputReading.RowsNeverFail | io.github.ericmedvet.mrsim2d.core/src/main/java/io/github/ericmedvet/mrsim2d/core/agents/selfassemblyvsr/NumSelfAssemblyVSR.java:95-107 | with at least as many outcomes as input slots from the cursor on, the read does not fail |
| InputReading.SlotCountAfter | io.github.ericmedvet.mrsim2d.core/src/main/java/io/github/ericmedvet/mrsim2d/core/agents/selfassemblyvsr/NumSelfAssemblyVSR.java:95-107 | the slot count depends only on the row lengths |
| InputReading.EmptyOutcomesFail | io.github.ericmedvet.mrsim2d.core/src/main/java/io/github/ericmedvet/mrsim2d/core/agents/selfassemblyvsr/NumSelfAssemblyVSR.java:95-98 | with no outcome at all and a non-empty first row the read fails (there is no emptiness guard) |
| InputReading.ReadCells | it.units.erallab.mrsim2d.core/src/main/java/it/units/erallab/mrsim2d/core/agents/gridvsr/NumGridVSR.java:68-83 | reading the grid keeps which cells are present and their lengths, and leaves the cells before the start untouched |
| InputReading.AbsentCellsUntouched | it.units.erallab.mrsim2d.core/src/main/java/it/units/erallab/mrsim2d/core/agents/gridvsr/NumGridVSR.java:69-71 | cells without inputs stay absent |
| SelfAssembly.Apply | io.github.ericmedvet.mrsim2d.core/src/main/java/io/github/ericmedvet/mrsim2d/core/agents/selfassemblyvsr/NumSelfAssemblyVSR.java:122 | a sensor applied to a body gives a sense action |
| SelfAssembly.NOfInputs | io.github.ericmedvet.mrsim2d.core/src/main/java/io/github/ericmedvet/mrsim2d/core/agents/selfassemblyvsr/NumSelfAssemblyVSR.java:80-82 | one input per sensor and, on top of them, one per side and signal channel |
| SelfAssembly.NOfOutputs | io.github.ericmedvet.mrsim2d.core/src/main/java/io/github/ericmedvet/mrsim2d/core/agents/selfassemblyvsr/NumSelfAssemblyVSR.java:84-90 | the outputs end exactly where the fourth side's message block ends, and the attachment outputs come before the first message block |
| SelfAssembly.ClipAll | io.github.ericmedvet.mrsim2d.core/src/main/java/io/github/ericmedvet/mrsim2d/core/agents/selfassemblyvsr/NumSelfAssemblyVSR.java:110-116 | every output is clipped into [-1,1]: kept inside it, 1 above it, -1 below it, length unchanged |
| SelfAssembly.SideBaseClosed | io.github.ericmedvet.mrsim2d.core/src/main/java/io/github/ericmedvet/mrsim2d/core/agents/selfassemblyvsr/NumSelfAssemblyVSR.java:146-158 | the message block of side s starts at output 5 + s * nSignals |
| SelfAssembly.MessageBlockFits | io.github.ericmedvet.mrsim2d.core/src/main/java/io/github/ericmedvet/mrsim2d/core/agents/selfassemblyvsr/NumSelfAssemblyVSR.java:146-158 | every side's message block ends within nOfOutputs(nSignals) |
| SelfAssembly.OutputIndexes | io.github.ericmedvet.mrsim2d.core/src/main/java/io/github/ericmedvet/mrsim2d/core/agents/selfassemblyvsr/NumSelfAssemblyVSR.java:126-158 | the actuation index 0, the attach indexes 1..4 and the message indexes are all below nOfOutputs, ordered, and the message indexes are distinct |
| SelfAssembly.OutputIndexesCover | io.github.ericmedvet.mrsim2d.core/src/main/java/io/github/ericmedvet/mrsim2d/core/agents/selfassemblyvsr/NumSelfAssemblyVSR.java:84-90 | every index below nOfOutputs(nSignals) = 4 * nSignals + 4 + 1 is the actuation index, an attach index or a message index |
| SelfAssembly.Actuations | io.github.ericmedvet.mrsim2d.core/src/main/java/io/github/ericmedvet/mrsim2d/core/agents/selfassemblyvsr/NumSelfAssemblyVSR.java:128-131 | exactly one actuation per unit |
| SelfAssembly.AttachFor | io.github.ericmedvet.mrsim2d.core/src/main/java/io/github/ericmedvet/mrsim2d/core/agents/selfassemblyvsr/NumSelfAssemblyVSR.java:136-142 | a value above 0.25 gives exactly one AttractAndLinkClosestAnchorable(anchors of the side, 1, SOFT), below -0.25 exactly one DetachAnchors, otherwise nothing (each an if and only if) |
| SelfAssembly.AttachSide | io.github.ericmedvet.mrsim2d.core/src/main/java/io/github/ericmedvet/mrsim2d/core/agents/selfassemblyvsr/NumSelfAssemblyVSR.java:133-144 | one side contributes at most one action per unit |
| SelfAssembly.Messages | io.github.ericmedvet.mrsim2d.core/src/main/java/io/github/ericmedvet/mrsim2d/core/agents/selfassemblyvsr/NumSelfAssemblyVSR.java:152-156 | a unit's messages on a side are two actions per channel |
| SelfAssembly.UnitMessages | io.github.ericmedvet.mrsim2d.core/src/main/java/io/github/ericmedvet/mrsim2d/core/agents/selfassemblyvsr/NumSelfAssemblyVSR.java:148-156 | a unit's block on a side has 2 * nSignals actions |
| SelfAssembly.SenseActionsLength | io.github.ericmedvet.mrsim2d.core/src/main/java/io/github/ericmedvet/mrsim2d/core/agents/selfassemblyvsr/NumSelfAssemblyVSR.java:119-124 | the sense actions number the sensors of the units |
| SelfAssembly.SenseActionsAt | io.github.ericmedvet.mrsim2d.core/src/main/java/io/github/ericmedvet/mrsim2d/core/agents/selfassemblyvsr/NumSelfAssemblyVSR.java:119-124 | sensor j of unit i is applied to that unit's body at position (sensors of earlier units) + j |
| SelfAssembly.SensesFirst | io.github.ericmedvet.mrsim2d.core/src/main/java/io/github/ericmedvet/mrsim2d/core/agents/selfassemblyvsr/NumSelfAssemblyVSR.java:119-124 | every action of the sense block is a sense |
| SelfAssembly.MessagesAt | io.github.ericmedvet.mrsim2d.core/src/main/java/io/github/ericmedvet/mrsim2d/core/agents/selfassemblyvsr/NumSelfAssemblyVSR.java:152-156 | channel j's EmitNFCMessage carries output base + j and is followed by a SenseNFC with the same body, displacement, direction and channel |
| SelfAssembly.MessagesSidesLength | io.github.ericmedvet.mrsim2d.core/src/main/java/io/github/ericmedvet/mrsim2d/core/agents/selfassemblyvsr/NumSelfAssemblyVSR.java:146-159 | all message blocks together have 8 * nSignals * unitNumber actions |
| SelfAssembly.AttachSidesLength | io.github.ericmedvet.mrsim2d.core/src/main/java/io/github/ericmedvet/mrsim2d/core/agents/selfassemblyvsr/NumSelfAssemblyVSR.java:133-144 | the attach block has at most 4 * unitNumber actions |
| SelfAssembly.MessagesSidesOnly | io.github.ericmedvet.mrsim2d.core/src/main/java/io/github/ericmedvet/mrsim2d/core/agents/selfassemblyvsr/NumSelfAssemblyVSR.java:146-159 | the message block holds only EmitNFCMessage and SenseNFC actions |
| SelfAssembly.LayoutSize | io.github.ericmedvet.mrsim2d.core/src/main/java/io/github/ericmedvet/mrsim2d/core/agents/selfassemblyvsr/NumSelfAssemblyVSR.java:119-159 | at most one structural request per unit and side, so the action count lies between sensors + unitNumber + 8 * unitNumber * nSignals and that plus 4 * unitNumber |
| SelfAssembly.Layout | io.github.ericmedvet.mrsim2d.core/src/main/java/io/github/ericmedvet/mrsim2d/core/agents/selfassemblyvsr/NumSelfAssemblyVSR.java:119-159 | the action count is the sensor count + unitNumber + the number of attach and detach actions + 8 * unitNumber * nSignals; where each action sits is stated by LayoutSenseAt, LayoutActuationAt and LayoutMessageAt |
| SelfAssembly.LayoutSenseAt | io.github.ericmedvet.mrsim2d.core/src/main/java/io/github/ericmedvet/mrsim2d/core/agents/selfassemblyvsr/NumSelfAssemblyVSR.java:119-124 | the action list begins with the sense actions, unit by unit and sensor by sensor |
| SelfAssembly.LayoutSensesFirst | io.github.ericmedvet.mrsim2d.core/src/main/java/io/github/ericmedvet/mrsim2d/core/agents/selfassemblyvsr/NumSelfAssemblyVSR.java:119-124 | every action before the actuations is a sense |
| SelfAssembly.LayoutActuationAt | io.github.ericmedvet.mrsim2d.core/src/main/java/io/github/ericmedvet/mrsim2d/core/agents/selfassemblyvsr/NumSelfAssemblyVSR.java:126-131 | right after the senses come the unitNumber actuations, unit i's with value outputs[i][0] |
| SelfAssembly.LayoutMessageAt | io.github.ericmedvet.mrsim2d.core/src/main/java/io/github/ericmedvet/mrsim2d/core/agents/selfassemblyvsr/NumSelfAssemblyVSR.java:146-159 | for side s, unit i and channel j the emit/sense pair with output 5 + s * nSignals + j sits at its position after the attach block |
| SelfAssembly.AttachSideRequests | io.github.ericmedvet.mrsim2d.core/src/main/java/io/github/ericmedvet/mrsim2d/core/agents/selfassemblyvsr/NumSelfAssemblyVSR.java:133-144 | an attach (detach) request for a body's side is in a side's block exactly when it is that side and the body's unit has output above 0.25 (below -0.25) |
| SelfAssembly.AttachSidesRequests | io.github.ericmedvet.mrsim2d.core/src/main/java/io/github/ericmedvet/mrsim2d/core/agents/selfassemblyvsr/NumSelfAssemblyVSR.java:133-144 | over the sides in enum order, each request appears exactly when its side's output crosses the threshold |
| SelfAssembly.AttachRequested | io.github.ericmedvet.mrsim2d.core/src/main/java/io/github/ericmedvet/mrsim2d/core/agents/selfassemblyvsr/NumSelfAssemblyVSR.java:133-144 | in the whole action list (distinct bodies) unit i attaches side s exactly when outputs[i][1 + s] > 0.25 and detaches it exactly when outputs[i][1 + s] < -0.25 |
| SelfAssemblyAgent.EmitSideRequests | io.github.ericmedvet.mrsim2d.core/src/main/java/io/github/ericmedvet/mrsim2d/core/agents/selfassemblyvsr/NumSelfAssemblyVSR.java:133-144 | the imperative loop over the units for one side emits the attach block of that side |
| SelfAssemblyAgent.EmitUnitMessages | io.github.ericmedvet.mrsim2d.core/src/main/java/io/github/ericmedvet/mrsim2d/core/agents/selfassemblyvsr/NumSelfAssemblyVSR.java:152-156 | the channel loop emits the unit's message pairs |
| SelfAssemblyAgent.EmitStructural | io.github.ericmedvet.mrsim2d.core/src/main/java/io/github/ericmedvet/mrsim2d/core/agents/selfassemblyvsr/NumSelfAssemblyVSR.java:126-144 | the side loop with the index increments emits the whole attach block and leaves the index at 4 |
| SelfAssemblyAgent.EmitSideMessages | io.github.ericmedvet.mrsim2d.core/src/main/java/io/github/ericmedvet/mrsim2d/core/agents/selfassemblyvsr/NumSelfAssemblyVSR.java:148-157 | the unit loop of one side emits that side's messages |
| SelfAssemblyAgent.EmitMessages | io.github.ericmedvet.mrsim2d.core/src/main/java/io/github/ericmedvet/mrsim2d/core/agents/selfassemblyvsr/NumSelfAssemblyVSR.java:146-159 | the side loop, advancing the index by nSignals, emits all message blocks |
| SelfAssemblyAgent.EmitActions | io.github.ericmedvet.mrsim2d.core/src/main/java/io/github/ericmedvet/mrsim2d/core/agents/selfassemblyvsr/NumSelfAssemblyVSR.java:119-161 | the emitted list is the layout above (senses, actuations, attach/detach, messages) |
| SelfAssemblyAgent.CreationsMeaning | io.github.ericmedvet.mrsim2d.core/src/main/java/io/github/ericmedvet/mrsim2d/core/agents/selfassemblyvsr/AbstractSelfAssemblyVSR.java:48-60 | at most unitNumber identical CreateVoxel actions are issued; the m-th body is the m-th outcome; the run fails exactly when fewer than unitNumber bodies were created, and then the last issued outcome was not a body and nothing more was issued |
| SelfAssemblyAgent.CreationsStep | io.github.ericmedvet.mrsim2d.core/src/main/java/io/github/ericmedvet/mrsim2d/core/agents/selfassemblyvsr/AbstractSelfAssemblyVSR.java:49-58 | one iteration: a body outcome is kept and the loop goes on, any other outcome ends it |
| SelfAssemblyAgent.ListAdd | io.github.ericmedvet.mrsim2d.core/src/main/java/io/github/ericmedvet/mrsim2d/core/agents/selfassemblyvsr/AbstractSelfAssemblyVSR.java:58 | adding to an immutable list throws UnsupportedOperationException; to a mutable one it appends |
| SelfAssemblyAgent.AssembleAsWrittenThrows | io.github.ericmedvet.mrsim2d.core/src/main/java/io/github/ericmedvet/mrsim2d/core/agents/selfassemblyvsr/AbstractSelfAssemblyVSR.java:42-58 | as written, the first created voxel is added to List.of() and assemble throws |
| SelfAssemblyAgent.AssembleOnMutableList | io.github.ericmedvet.mrsim2d.core/src/main/java/io/github/ericmedvet/mrsim2d/core/agents/selfassemblyvsr/AbstractSelfAssemblyVSR.java:48-60 | on a mutable list the written loop appends exactly the created bodies, or throws NoSuchElementException when an outcome is missing |
| SelfAssemblyAgent.CreateUnits | io.github.ericmedvet.mrsim2d.core/src/main/java/io/github/ericmedvet/mrsim2d/core/agents/selfassemblyvsr/AbstractSelfAssemblyVSR.java:49-58 | the creation loop issues the actions of the creation run and returns its bodies |
| SelfAssemblyAgent.InputWidthAgainstCheck | io.github.ericmedvet.mrsim2d.core/src/main/java/io/github/ericmedvet/mrsim2d/core/agents/selfassemblyvsr/NumSelfAssemblyVSR.java:68-77 | the input rows (sized by the number of sensor lists) and the check (sized by the first list) agree exactly when the two numbers are equal |
| SelfAssemblyAgent.DimensionsChecked | io.github.ericmedvet.mrsim2d.core/src/main/java/io/github/ericmedvet/mrsim2d/core/agents/selfassemblyvsr/NumSelfAssemblyVSR.java:73-77 | the check every brain must pass; a checked brain accepts the agent's own input rows exactly when the number of sensor lists is the size of the first list |
| SelfAssemblyAgent.NumSelfAssemblyVsr.Emitted | io.github.ericmedvet.mrsim2d.core/src/main/java/io/github/ericmedvet/mrsim2d/core/agents/selfassemblyvsr/NumSelfAssemblyVSR.java:110-162 | act succeeds exactly when every unit has a brain, a sensor list, a body and a row of at least nOfOutputs outputs; failures come in the source's order: brains, then the sense stream (no sensor list, or sensors but no body), then the actuation stream (an empty row before a missing body), then the attachment and message loops |
| SelfAssemblyAgent.NumSelfAssemblyVsr.constructor | io.github.ericmedvet.mrsim2d.core/src/main/java/io/github/ericmedvet/mrsim2d/core/agents/selfassemblyvsr/NumSelfAssemblyVSR.java:62-77 | zero input rows of width nOfInputs(number of sensor lists, nSignals), zero output rows of width nOfOutputs, an empty unit body; requires the brain dimension check |
| SelfAssemblyAgent.NumSelfAssemblyVsr.Assemble | io.github.ericmedvet.mrsim2d.core/src/main/java/io/github/ericmedvet/mrsim2d/core/agents/selfassemblyvsr/AbstractSelfAssemblyVSR.java:48-60 | the created bodies are appended to the unit body in creation order and the engine sees exactly the creation run's actions |
| SelfAssemblyAgent.NumSelfAssemblyVsr.ReadInputRow | io.github.ericmedvet.mrsim2d.core/src/main/java/io/github/ericmedvet/mrsim2d/core/agents/selfassemblyvsr/NumSelfAssemblyVSR.java:97-106 | one input row is rewritten as the row read from the cursor says, the other rows unchanged |
| SelfAssemblyAgent.NumSelfAssemblyVsr.ReadInputs | io.github.ericmedvet.mrsim2d.core/src/main/java/io/github/ericmedvet/mrsim2d/core/agents/selfassemblyvsr/NumSelfAssemblyVSR.java:94-107 | the input rows become the result of reading all rows from cursor 0; failure when the outcomes run out |
| SelfAssemblyAgent.NumSelfAssemblyVsr.ComputeOutputs | io.github.ericmedvet.mrsim2d.core/src/main/java/io/github/ericmedvet/mrsim2d/core/agents/selfassemblyvsr/NumSelfAssemblyVSR.java:109-116 | every unit with a brain gets its clipped brain step on its input row; it fails exactly when there are fewer brains than units |
| SelfAssemblyAgent.NumSelfAssemblyVsr.Act | io.github.ericmedvet.mrsim2d.core/src/main/java/io/github/ericmedvet/mrsim2d/core/agents/selfassemblyvsr/NumSelfAssemblyVSR.java:92-162 | the read, then the outputs, then the emitted layout; the first failure in the order the source meets it is reported (missing outcome, missing brain, then the sense stream, the actuation stream and the later loops, as Emitted orders them), with the state changed exactly as far as the failing step |
| SelfAssemblyAgent.Create | io.github.ericmedvet.mrsim2d.core/src/main/java/io/github/ericmedvet/mrsim2d/core/agents/selfassemblyvsr/NumSelfAssemblyVSR.java:73-77 | construction succeeds exactly when the first sensor list exists (if there are brains) and every brain passes the check; brains without sensor lists fail with the IndexOutOfBoundsException of sensors.get(0), otherwise a failed check gives the dimension error |
| GridVsr.InitialInputs | it.units.erallab.mrsim2d.core/src/main/java/it/units/erallab/mrsim2d/core/agents/gridvsr/NumGridVSR.java:54 | an input cell exists exactly where there is a sensor list, a zero row of that list's length |
| GridVsr.InitialOutputs | it.units.erallab.mrsim2d.core/src/main/java/it/units/erallab/mrsim2d/core/agents/gridvsr/NumGridVSR.java:55 | an output cell is 0 exactly where there is a voxel and absent exactly where there is none |
| GridVsr.SetEntries | it.units.erallab.mrsim2d.core/src/main/java/it/units/erallab/mrsim2d/core/agents/gridvsr/NumGridVSR.java:86 | setting the timed function's entries keeps the grid size |
| GridVsr.SetEntriesMeaning | it.units.erallab.mrsim2d.core/src/main/java/it/units/erallab/mrsim2d/core/agents/gridvsr/NumGridVSR.java:86 | it fails exactly when some key is outside the grid; otherwise each cell named by an entry holds the last value set for it and every other cell keeps its value |
| GridVsr.GridSensesShape | it.units.erallab.mrsim2d.core/src/main/java/it/units/erallab/mrsim2d/core/agents/gridvsr/NumGridVSR.java:89-95 | the sense block has one action per sensor of each present voxel, and all are senses |
| GridVsr.GridSenseAt | it.units.erallab.mrsim2d.core/src/main/java/it/units/erallab/mrsim2d/core/agents/gridvsr/NumGridVSR.java:89-95 | sensor j of the voxel at key k is applied to that voxel at position (sensors of earlier present voxels) + j |
| GridVsr.GridActuationsLength | it.units.erallab.mrsim2d.core/src/main/java/it/units/erallab/mrsim2d/core/agents/gridvsr/NumGridVSR.java:97-100 | one actuation per present voxel |
| GridVsr.GridActuationAt | it.units.erallab.mrsim2d.core/src/main/java/it/units/erallab/mrsim2d/core/agents/gridvsr/NumGridVSR.java:97-100 | the present voxel at key k gets an actuation with its unclipped output value, in key order |
| GridVsr.GridLayoutShape | it.units.erallab.mrsim2d.core/src/main/java/it/units/erallab/mrsim2d/core/agents/gridvsr/NumGridVSR.java:88-101 | the action count is the sensor count of the present voxels plus their number, with the senses first |
| GridVsr.GridLayout | it.units.erallab.mrsim2d.core/src/main/java/it/units/erallab/mrsim2d/core/agents/gridvsr/NumGridVSR.java:88-101 | one sense per sensor of each voxel cell, cell by cell and sensor by sensor, then one actuation per voxel cell, in cell order, with that cell's output |
| GridVsr.NumGridVsr.constructor | it.units.erallab.mrsim2d.core/src/main/java/it/units/erallab/mrsim2d/core/agents/gridvsr/NumGridVSR.java:45-57 | the input and output grids start as described above |
| GridVsr.NumGridVsr.ReadInputCell | it.units.erallab.mrsim2d.core/src/main/java/it/units/erallab/mrsim2d/core/agents/gridvsr/NumGridVSR.java:70-82 | one cell is rewritten as the row read from the cursor says, the others unchanged |
| GridVsr.NumGridVsr.ReadInputs | it.units.erallab.mrsim2d.core/src/main/java/it/units/erallab/mrsim2d/core/agents/gridvsr/NumGridVSR.java:67-84 | with no outcomes the inputs are untouched; otherwise they become the result of reading the cells in key order |
| GridVsr.NumGridVsr.ApplyOutputs | it.units.erallab.mrsim2d.core/src/main/java/it/units/erallab/mrsim2d/core/agents/gridvsr/NumGridVSR.java:86 | the output grid becomes the result of setting the timed function's entries computed on the current inputs |
| GridVsr.NumGridVsr.Act | it.units.erallab.mrsim2d.core/src/main/java/it/units/erallab/mrsim2d/core/agents/gridvsr/NumGridVSR.java:65-102 | the read, the outputs, then the sense-then-actuation list; each failure (missing outcome, key out of the grid, voxel without sensor list or output) is reported |
| Paths.PathOf | io.github.ericmedvet.mrsim2d.core/src/main/java/io/github/ericmedvet/mrsim2d/core/geometry/Path.java:8-10 | a one-point path holds exactly that point |
| Paths.Add | io.github.ericmedvet.mrsim2d.core/src/main/java/io/github/ericmedvet/mrsim2d/core/geometry/Path.java:12-17 | a new path with the old points as prefix and the point last; the receiver is a value and is unchanged |
| Paths.AddXY | io.github.ericmedvet.mrsim2d.core/src/main/java/io/github/ericmedvet/mrsim2d/core/geometry/Path.java:19-21 | add(x, y) appends the point (x, y) |
| Paths.AddPath | io.github.ericmedvet.mrsim2d.core/src/main/java/io/github/ericmedvet/mrsim2d/core/geometry/Path.java:23-29 | the points of the other path are appended in order |
| Paths.MoveBy | io.github.ericmedvet.mrsim2d.core/src/main/java/io/github/ericmedvet/mrsim2d/core/geometry/Path.java:35-37 | fails exactly on an empty path; otherwise appends the last point plus the vector |
| Paths.MoveByXY | io.github.ericmedvet.mrsim2d.core/src/main/java/io/github/ericmedvet/mrsim2d/core/geometry/Path.java:31-33 | fails exactly on an empty path; otherwise appends the last point shifted by x and y |
| Paths.Offsets | io.github.ericmedvet.mrsim2d.core/src/main/java/io/github/ericmedvet/mrsim2d/core/geometry/Path.java:39-45 | each appended point is the other's point plus the receiver's last point |
| Paths.MoveByPath | io.github.ericmedvet.mrsim2d.core/src/main/java/io/github/ericmedvet/mrsim2d/core/geometry/Path.java:39-45 | fails exactly when the receiver is empty and the other is not; an empty other leaves the path as it is; otherwise appends every other point offset by the original last point |
| Paths.OffsetsNotCumulative | io.github.ericmedvet.mrsim2d.core/src/main/java/io/github/ericmedvet/mrsim2d/core/geometry/Path.java:39-45 | every appended point is at the same offset from the receiver's last point, whatever its position |
| Paths.MoveByOnePoint | io.github.ericmedvet.mrsim2d.core/src/main/java/io/github/ericmedvet/mrsim2d/core/geometry/Path.java:35-45 | moving by a point and moving by the one-point path of it append the same point |
| Paths.ToPoly | io.github.ericmedvet.mrsim2d.core/src/main/java/io/github/ericmedvet/mrsim2d/core/geometry/Path.java:47-49 | the polygon has exactly the path's points |
| Balancing.AvgSwingAngle | io.github.ericmedvet.mrsim2d.core/src/main/java/io/github/ericmedvet/mrsim2d/core/tasks/balancing/BalancingOutcome.java:13-19 | fails with the message exactly when there are no observations; otherwise the mean of the absolute angles |
| Balancing.AvgSwingAngleWithMalus | io.github.ericmedvet.mrsim2d.core/src/main/java/io/github/ericmedvet/mrsim2d/core/tasks/balancing/BalancingOutcome.java:21-27 | fails exactly when there are no observations; otherwise the mean of |angle| plus the malus where not all agents are on the swing |
| Balancing.AvgSwingAngleNonNegative | io.github.ericmedvet.mrsim2d.core/src/main/java/io/github/ericmedvet/mrsim2d/core/tasks/balancing/BalancingOutcome.java:13-19 | the average absolute angle is never negative |
| Balancing.MalusFreeAverage | io.github.ericmedvet.mrsim2d.core/src/main/java/io/github/ericmedvet/mrsim2d/core/tasks/balancing/BalancingOutcome.java:16-24 | with a zero malus, or all agents always on the swing, both averages agree |
| Balancing.MalusAverageAtLeast | io.github.ericmedvet.mrsim2d.core/src/main/java/io/github/ericmedvet/mrsim2d/core/tasks/balancing/BalancingOutcome.java:13-27 | a non-negative malus never gives a smaller average |
| Balancing.InRange | io.github.ericmedvet.mrsim2d.core/src/main/java/io/github/ericmedvet/mrsim2d/core/tasks/balancing/BalancingOutcome.java:29-32 | the kept observations are exactly those whose time lies in the range, bounds included |
| Balancing.InRangeOrdered | io.github.ericmedvet.mrsim2d.core/src/main/java/io/github/ericmedvet/mrsim2d/core/tasks/balancing/BalancingOutcome.java:29-32 | filtering keeps the time order |
| Balancing.SubOutcome | io.github.ericmedvet.mrsim2d.core/src/main/java/io/github/ericmedvet/mrsim2d/core/tasks/balancing/BalancingOutcome.java:29-32 | the sub-outcome holds exactly the observations in the time range and keeps their order |
| Locomotion.DefaultTask | io.github.ericmedvet.mrsim2d.core/src/main/java/io/github/ericmedvet/mrsim2d/core/tasks/locomotion/Locomotion.java:28-46 | the two-argument task has gaps 1 and 0.25 |
| Locomotion.Placement | io.github.ericmedvet.mrsim2d.core/src/main/java/io/github/ericmedvet/mrsim2d/core/tasks/locomotion/Locomotion.java:57-70 | with boxes that follow translations, the agent's box ends with its left side xGap right of the terrain's left border, its size unchanged, and its bottom yGap above the highest terrain point under its x-range |
| Locomotion.Build | io.github.ericmedvet.mrsim2d.core/src/main/java/io/github/ericmedvet/mrsim2d/core/tasks/locomotion/Locomotion.java:57-70 | setup issues CreateUnmovableBody(terrain), AddAgent, the x translation and then the y translation computed from the recomputed box |
| Locomotion.TickUntil | io.github.ericmedvet.mrsim2d.core/src/main/java/io/github/ericmedvet/mrsim2d/core/tasks/locomotion/Locomotion.java:73-85 | the loop ticks while t < duration, hands each snapshot to the consumer in order and records each observation under the post-tick time |
| Locomotion.TickAndRecord | io.github.ericmedvet.mrsim2d.core/src/main/java/io/github/ericmedvet/mrsim2d/core/tasks/locomotion/Locomotion.java:74-84 | one iteration: one tick, its snapshot handed to the consumer, and the observation stored under the post-tick time, with nothing else changed |
| Locomotion.Run | io.github.ericmedvet.mrsim2d.core/src/main/java/io/github/ericmedvet/mrsim2d/core/tasks/locomotion/Locomotion.java:49-88 | setup followed by the ticking loop, with the snapshots, engine state and observations those two produce |
| Locomotion.TicksMeaning | io.github.ericmedvet.mrsim2d.core/src/main/java/io/github/ericmedvet/mrsim2d/core/tasks/locomotion/Locomotion.java:73-75 | no tick when t already reached the duration; every snapshot but the last is before it and the last is not; each tick adds one Ticked to the history |
| Locomotion.TicksIncrease | io.github.ericmedvet.mrsim2d.core/src/main/java/io/github/ericmedvet/mrsim2d/core/tasks/locomotion/Locomotion.java:73-77 | snapshot times strictly increase |
| Locomotion.ObservedMeaning | io.github.ericmedvet.mrsim2d.core/src/main/java/io/github/ericmedvet/mrsim2d/core/tasks/locomotion/Locomotion.java:76-87 | the observation keys are exactly the snapshot times, each holding what was observed right after that tick |
| Locomotion.StepsDecrease | io.github.ericmedvet.mrsim2d.core/src/main/java/io/github/ericmedvet/mrsim2d/core/tasks/locomotion/Locomotion.java:73 | each tick lowers the number of ticks still possible, so the loop ends |
| MlpSizing.Quot | it.units.erallab.mrsim2d.core/src/main/java/it/units/erallab/mrsim2d/core/builders/TimedRealFunctionBuilder.java:29-33 | Java's division truncates toward zero: the sign follows the dividend |
| MlpSizing.QuotBounds | it.units.erallab.mrsim2d.core/src/main/java/it/units/erallab/mrsim2d/core/builders/TimedRealFunctionBuilder.java:29-33 | the quotient times the divisor lies between 0 and the dividend, less than one divisor from it |
| MlpSizing.Round | it.units.erallab.mrsim2d.core/src/main/java/it/units/erallab/mrsim2d/core/builders/TimedRealFunctionBuilder.java:26 | Math.round is the integer nearest x, halves up |
| MlpSizing.ToInt | it.units.erallab.mrsim2d.core/src/main/java/it/units/erallab/mrsim2d/core/builders/TimedRealFunctionBuilder.java:26 | the (int) cast keeps the low 32 bits; a value that fits is unchanged |
| MlpSizing.CenterSize | it.units.erallab.mrsim2d.core/src/main/java/it/units/erallab/mrsim2d/core/builders/TimedRealFunctionBuilder.java:26 | when the rounded product fits in an int the centre size is at least 2 and at least the rounded product |
| MlpSizing.InnerSizes | it.units.erallab.mrsim2d.core/src/main/java/it/units/erallab/mrsim2d/core/builders/TimedRealFunctionBuilder.java:25-37 | one size per inner layer |
| MlpSizing.InnerNeurons | it.units.erallab.mrsim2d.core/src/main/java/it/units/erallab/mrsim2d/core/builders/TimedRealFunctionBuilder.java:25-37 | the array has nOfInnerLayers entries: none for 0, the centre size for 1, and for more the two loops' values |
| MlpSizing.CenterLayer | it.units.erallab.mrsim2d.core/src/main/java/it/units/erallab/mrsim2d/core/builders/TimedRealFunctionBuilder.java:31-34 | with k = n / 2, entry k is the centre size |
| MlpSizing.FirstHalfBetween | it.units.erallab.mrsim2d.core/src/main/java/it/units/erallab/mrsim2d/core/builders/TimedRealFunctionBuilder.java:28-30 | the entries before k lie between the input size and the centre size, both included |
| MlpSizing.SecondHalfBetween | it.units.erallab.mrsim2d.core/src/main/java/it/units/erallab/mrsim2d/core/builders/TimedRealFunctionBuilder.java:31-34 | the entries from k on lie between the centre size and the output size, both included |
| MlpSizing.TruncatedStep | it.units.erallab.mrsim2d.core/src/main/java/it/units/erallab/mrsim2d/core/builders/TimedRealFunctionBuilder.java:29 | a negative step truncates toward zero: with 10 inputs, centre 7 and 3 layers the first entry is 9, not 8 |

## Left out

- MlpSizing.Round: Math.round(double) returns a long that saturates at -2^63 and 2^63 - 1; the model rounds to an unbounded integer, so CenterSize differs from the source when the product of the inputs and the ratio is at least 2^63 in size.
- Locomotion.TickUntil: the model assumes an engine whose every tick advances the time by at least a positive minStep; that is what makes the loop end. The source's loop does not end for an engine whose time stops advancing, and the model does not cover such an engine.
- The physics engine. Outcomes, bounding boxes, body polygons and the time advance are functions supplied with the engine. A segment's centre is taken as its midpoint (`Geometry.SegmentCenter`); polygon centres and the direction of a point are parameters of the self-assembling agent's `act`. The terrain's `maxHeightAt` and `PolyUtils.maxYAtX` are fields of the terrain value.
- The brains (`NumericalDynamicalSystem.step` and `checkDimension`) and the sensors (`Sensor.apply`) are opaque functions and predicates.
- Floating point: all coordinates, angles and sensed values are exact reals. `Math.round` is floor(x + 0.5), and `Math.abs` is exact.
- `DoubleRange` comes from a library that is not part of this model. It is modelled as the obvious linear maps on ranges with min < max: clip, normalise into [0,1], and denormalise from [0,1].
- The range of `SenseNFC` is not part of this model. It is taken as [-1,1].
- Integer widths. Indexes, counts and grid keys are unbounded naturals, so the `int` cursor and `int` sizes cannot overflow in the model. The channel's `(short)` cast and the centre size's `(int)` cast are written out (`Actions.ToShort`, `MlpSizing.ToInt`).
- MlpSizing.InnerNeurons: `nOfInnerLayers` is a `nat`, so the `NegativeArraySizeException` for a negative one is not modelled. The sums in the two loops are unbounded integers and do not wrap.
- The interior of `mlp`: building the `MultiLayerPerceptron` and counting its weights (`TimedRealFunctionBuilder.java` lines 38-44), and the other builders (`sinP`, `sinPF`, `sinPFA`, `stepped`). Those classes are not part of this model.
- `bodyParts()` is the unit-body sequence itself. The upcast to `Body` has no counterpart. It has no contract of its own.
- `brainIOs`/`brains` only pair existing arrays with constant ranges.
- The initial voxel positions are left out, because assembly in the source leaves them as a TODO.
- Grids are sequences of optional cells in key order. The grid agent's input and output grids are arrays of such cells, and each row is rewritten as a whole value rather than element by element. The brain's `Grid` result is a sequence of key/value entries.
- The self-assembling agent's output rows are an array of sequences: each `outputs[i]` is reassigned whole, as in the source.
- SelfAssemblyAgent.NumSelfAssemblyVsr.Assemble appends the created bodies to the unit body once, after the creation loop. The source appends inside the loop. Nothing reads the unit body during the loop, so the final state is the same, also after a failed creation, which keeps the bodies created before it.
- Locomotion.Run returns the observations as a `map` from time to observation. The `TreeMap`'s key order is the order of the reals. Observations are stored under the post-tick time, so the last key is at or after the duration.
- Locomotion.Placement assumes an engine whose bounding boxes follow the translations. The generic engine promises nothing about its geometry.
- `Outcome.subOutcome` sits in a base class that is not part of this model. It is taken as the inclusive filter of the observations by time.
- The viewer, the dyn4j anchor adapter and the builder/registration layer are not part of this model.
- Exceptions are `Err` values whose message starts with the Java exception's name. `IndexOutOfBoundsException` and `NullPointerException` are told apart only by that name.

## Findings

| source | as written | input that shows it | evidently intended | confidence | as-written member | corrected member |
|---|---|---|---|---|---|---|
| io.github.ericmedvet.mrsim2d.core/src/main/java/io/github/ericmedvet/mrsim2d/core/agents/selfassemblyvsr/AbstractSelfAssemblyVSR.java:42 | `unitBody` is initialised with `List.of()`, which is immutable, and `assemble` calls `unitBody.add(body)` at line 58 | unitNumber = 1 and an engine whose `CreateVoxel` outcome is a voxel: `add` throws `UnsupportedOperationException` | a mutable list to which the created voxels are appended in creation order | high; not executed | SelfAssemblyAgent.AssembleAsWrittenThrows | SelfAssemblyAgent.NumSelfAssemblyVsr.Assemble |
