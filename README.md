# Rig constraints of the SIGGRAPH 2019 Animation Rigging workshop, in Dafny

This project models the bind-time and per-frame bookkeeping of the custom
Animation Rigging constraints in the repository. There are two families, each
in a finished version (`Assets/Constraints`) and the workshop's versions
(`Assets/AnimationRiggingWorkshop/Constraints`).

**Twist chain.**
- Extract the joints from a root transform down to a tip transform.
- Parameterise them by accumulated bone length ("steps").
- Optionally shape the steps with an animation curve ("weights").
- Every frame, blend each joint's rotation toward an interpolation between the
  rotations of two target handles.
- Then move the two target handles onto the ends of the chain.

**Copy location.**
- Every frame, under a positive weight, move a constrained transform toward the
  position of a source transform.
- On the way, multiply the source position per axis by a ±1 invert mask.

Each source file is its own module. The modelled entities are:
- **The transform hierarchy** (`Transforms`): a parent map, a depth map that
  witnesses acyclicity, and each transform's local-position magnitude.
- **The animation stream** (`Animation.AnimationStream`): a class holding one
  rotation and one position per bound handle. Handles are read and written
  through `GetRotation`, `SetRotation`, `GetPosition`, `SetPosition` and
  `PassThrough`.
- **The twist-chain jobs**: classes whose `chain`, `steps` and `weights` are
  Dafny arrays, as the source's NativeArrays are. Binders fill the arrays in
  loops, and `Update` rewrites `weights` in place.
- **The copy-location jobs**: datatypes, like the source's value-type job
  structs. Their `ProcessAnimation` methods perform the one guarded stream write.

Specification functions state what the loops compute, and the methods are
proved against them:
- `Transforms.Path` is the root-to-tip path.
- `ArcLength.Steps` is the arc-length table.
- `ArcLength.Weights` is the shaped weight table.
- `TwistBlend.BlendedRotations` gives the rotations after an in-order blend of
  the chain.
- `TwistBlend.TrackTargets` gives the target positions.
- `CopyBlend.CopyPosition` gives the result of one gated copy.

Lemmas then prove what the source promises about those functions:
- the shape of the path (parent links, uniqueness, length);
- the shape of the steps (0 at the root, 1 at the tip, non-decreasing, in [0, 1]);
- the weight range;
- per-joint blend results and behaviour at weights 0 and 1;
- mask algebra, and how the variants relate.

The steps are divided by the total chain length without a guard in the
source. `ConstraintsUtils.ExtractSteps` (workshop) and `TwistChain.Create`
therefore require a positive total length. The code has no fallback for a
zero total, and the model follows the code.

`Quaternion.Lerp` and `AnimationCurve.Evaluate` are passed in as
functions and left uninterpreted. The blend is `Quaternion.Lerp`, a
normalised linear interpolation, not a spherical one. The model only fixes
which arguments each call receives.

## Model

| member | source | states |
|---|---|---|
| Transforms.Path | Assets/AnimationRiggingWorkshop/Constraints/ConstraintsUtils.cs:15-24 | the chain from root to tip has depth(tip) - depth(root) + 1 joints, starts at root and ends at tip; `tip == root` gives `[root]` |
| Transforms.PathDepths | Assets/AnimationRiggingWorkshop/Constraints/ConstraintsUtils.cs:16-20 | joint i of the chain sits at depth(root) + i, so each step of the walk moves one level closer to the root |
| Transforms.PathLinkedAndDistinct | Assets/Constraints/ConstraintsUtils.cs:17-23 | each joint after the first is a child of the one before it, and no transform appears twice |
| Transforms.PathUnique | Assets/Constraints/ConstraintsUtils.cs:13-23 | a parent-linked sequence from root to tip exists only if tip lies under root, and it is then exactly the extracted chain |
| Transforms.Reversed | Assets/Constraints/ConstraintsUtils.cs:23 | `List.Reverse`: same length, element i is the element |s|-1-i of the input |
| ConstraintsUtils.ExtractChain | Assets/Constraints/ConstraintsUtils.cs:9-26 | empty list when tip is not under root; otherwise the root-to-tip path, first root, last tip, depth difference + 1 long |
| WorkshopConstraintsUtils.ExtractChain | Assets/AnimationRiggingWorkshop/Constraints/ConstraintsUtils.cs:8-25 | empty array when tip is not under root; otherwise the root-to-tip path, first root, last tip, depth difference + 1 long |
| WorkshopConstraintsUtils.ExtractLengths | Assets/AnimationRiggingWorkshop/Constraints/ConstraintsUtils.cs:27-39 | one length per joint: 0 for the root, the joint's local-position magnitude after it; all non-negative |
| WorkshopConstraintsUtils.SumAll | Assets/AnimationRiggingWorkshop/Constraints/ConstraintsUtils.cs:45-46 | the total length is the sum of all lengths |
| WorkshopConstraintsUtils.AccumulateSteps | Assets/AnimationRiggingWorkshop/Constraints/ConstraintsUtils.cs:48-59 | step i is (lengths[0] + ... + lengths[i]) / total |
| WorkshopConstraintsUtils.ExtractSteps | Assets/AnimationRiggingWorkshop/Constraints/ConstraintsUtils.cs:41-62 | with a positive total: one step per joint, the arc-length table of the chain, 0 at the root, 1 at the tip, non-decreasing, all in [0, 1] |
| ArcLength.SegmentLengthsShape | Assets/AnimationRiggingWorkshop/Constraints/ConstraintsUtils.cs:29-36 | the length table has one entry per joint, 0 first, the joint magnitudes after, all non-negative |
| ArcLength.SumPrefixMonotone | Assets/AnimationRiggingWorkshop/Constraints/ConstraintsUtils.cs:52-54 | the accumulated length never decreases along the chain and never exceeds the total |
| ArcLength.StepsEndpoints | Assets/AnimationRiggingWorkshop/Constraints/ConstraintsUtils.cs:52-58 | the root's step is 0 and the tip's is 1 |
| ArcLength.StepsMonotone | Assets/AnimationRiggingWorkshop/Constraints/ConstraintsUtils.cs:52-58 | steps never decrease from root to tip |
| ArcLength.StepInUnitRange | Assets/AnimationRiggingWorkshop/Constraints/ConstraintsUtils.cs:56 | every step lies in [0, 1] |
| ArcLength.StepsShape | Assets/AnimationRiggingWorkshop/Constraints/ConstraintsUtils.cs:52-59 | the step table has the chain's length, starts at 0, ends at 1, is non-decreasing and lies in [0, 1] |
| ArcLength.ChainStepsShape | Assets/Constraints/TwistChain.cs:105-126 | the same shape for the steps of any chain with a positive total length |
| ArcLength.Clamp01 | Assets/Constraints/TwistChain.cs:125 | `Mathf.Clamp01`: the result is in [0, 1], equal to the input inside it, 0 below and 1 above |
| ArcLength.Weights | Assets/Constraints/TwistChain.cs:125 | one weight per step, each in [0, 1] whatever the curve |
| ArcLength.LinearCurve | Assets/Constraints/TwistChain.cs:71 | `AnimationCurve.Linear(0, 0, 1, 1)` is the identity on [0, 1] and stays in [0, 1] |
| ArcLength.LinearCurveWeightsAreSteps | Assets/Constraints/TwistChain.cs:71 | with the default linear curve the weight table equals the step table |
| ArcLength.WeightsClampExactly | Assets/Constraints/TwistChain.cs:143 | definitional: weight i is the clamped curve value at step i, which is the curve value itself when that lies in [0, 1] |
| Animation.Lerp | Assets/Constraints/CopyLocation.cs:34 | `math.lerp`: weight 0 gives the start, weight 1 the end, equal ends give that value |
| Animation.AxisSign | Assets/Constraints/CopyLocation.cs:27 | `math.select(1, -1, flag)` is ±1 and negative exactly when the flag is set |
| Animation.InvertMask | Assets/Constraints/CopyLocation.cs:26-30 | mask component k is negative exactly when axis k's invert flag is set |
| Animation.MaskInvolution | Assets/Constraints/CopyLocation.cs:26-34 | applying a mask twice gives back the original vector |
| Animation.MaskNoneIsIdentity | Assets/Constraints/CopyLocation.cs:58 | the all-false mask leaves the source unchanged |
| Animation.MaskAllIsNegation | Assets/AnimationRiggingWorkshop/Constraints/CopyLocationStep0.cs:28 | the all-true mask is negation, the `-source` of the early steps |
| Animation.AnimationStream.PassThrough | Assets/Constraints/TwistChain.cs:43-44 | passing a handle through leaves every rotation and position as it was |
| TwistBlend.BlendedRotations | Assets/Constraints/TwistChain.cs:32-35 | the in-order blend of the chain binds exactly the handles that were bound before it |
| TwistBlend.BlendedRotationsOutsideChain | Assets/Constraints/TwistChain.cs:32-35 | a handle that is not in the chain keeps its rotation, even when the chain repeats a joint |
| TwistBlend.BlendedRotationsAt | Assets/Constraints/TwistChain.cs:34 | joint i ends at `Lerp(its rotation before the frame, Lerp(rootRot, tipRot, param i), w)`; handles outside the chain keep their rotations |
| TwistBlend.FullWeightReachesTargets | Assets/Constraints/TwistChain.cs:34 | if `Lerp(a, b, 1) = b`, a full-weight frame sets joint i to `Lerp(rootRot, tipRot, param i)` |
| TwistBlend.ZeroWeightKeepsRotations | Assets/AnimationRiggingWorkshop/Constraints/TwistChain.cs:32-35 | if `Lerp(a, b, 0) = a`, the ungated blend at weight 0 changes no rotation |
| TwistBlend.TrackTargets | Assets/Constraints/TwistChain.cs:38-39 | the root target gets the first joint's position and the tip target the last joint's (read after the first write); no other handle changes |
| TwistChain.IsValid | Assets/Constraints/TwistChain.cs:60 | valid iff root, tip, both targets and the curve are set and tip lies under root; then the chain from root to tip exists and is parent-linked |
| TwistChain.SetDefaultValues | Assets/Constraints/TwistChain.cs:62-72 | all transforms unset, the curve linear, and the result invalid on every hierarchy |
| TwistChain.TwistChainJob.constructor | Assets/Constraints/TwistChain.cs:92-97 | three fresh arrays of the chain's length and the two target handles |
| TwistChain.TwistChainJob.ProcessAnimation | Assets/Constraints/TwistChain.cs:22-46 | w <= 0: every joint passed through and the stream unchanged; w > 0: rotations are the in-order blend toward `Lerp(rootRot, tipRot, weights[i])`, the target rotations read before any write, and target positions track the chain ends |
| TwistChain.WalkChain | Assets/Constraints/TwistChain.cs:81-89 | the inline walk builds the same root-to-tip path as the utility |
| TwistChain.ChainLengths | Assets/Constraints/TwistChain.cs:104-114 | the length table of the chain and its total |
| TwistChain.FillStepsAndWeights | Assets/Constraints/TwistChain.cs:116-126 | `steps` becomes the arc-length table and `weights` its clamped curve values |
| TwistChain.Create | Assets/Constraints/TwistChain.cs:78-129 | fresh arrays of one length: the chain is the root-to-tip path, steps its arc-length table, weights the clamped curve at each step, targets bound |
| TwistChain.Update | Assets/Constraints/TwistChain.cs:138-145 | only `weights` changes, to the clamped curve at the stored steps; a second call changes nothing |
| WorkshopTwistChain.IsValid | Assets/AnimationRiggingWorkshop/Constraints/TwistChain.cs:54 | valid iff all five references are set and tip lies under root |
| WorkshopTwistChain.SetDefaultValues | Assets/AnimationRiggingWorkshop/Constraints/TwistChain.cs:56-60 | transforms unset, linear curve, invalid |
| WorkshopTwistChain.TwistChainJob.constructor | Assets/AnimationRiggingWorkshop/Constraints/TwistChain.cs:76-78 | three fresh arrays of the chain's length and the two target handles |
| WorkshopTwistChain.TwistChainJob.ProcessAnimation | Assets/AnimationRiggingWorkshop/Constraints/TwistChain.cs:23-40 | at any weight: target rotations read first, every joint blended in order toward `Lerp(rootRot, tipRot, weights[i])`, then target positions track the chain ends |
| WorkshopTwistChain.Create | Assets/AnimationRiggingWorkshop/Constraints/TwistChain.cs:66-91 | the chain is the extracted path, steps are the extracted steps, weights the clamped curve at each step |
| WorkshopTwistChain.Update | Assets/AnimationRiggingWorkshop/Constraints/TwistChain.cs:100-107 | only `weights` changes, recomputed from the unchanged steps; idempotent |
| WorkshopTwistChainStep2.IsValid | Assets/AnimationRiggingWorkshop/Constraints/TwistChainStep2.cs:51 | valid iff root, tip and both targets are set and tip lies under root (no curve) |
| WorkshopTwistChainStep2.SetDefaultValues | Assets/AnimationRiggingWorkshop/Constraints/TwistChainStep2.cs:53-56 | transforms unset, invalid |
| WorkshopTwistChainStep2.TwistChainStep2Job.constructor | Assets/AnimationRiggingWorkshop/Constraints/TwistChainStep2.cs:71-72 | two fresh arrays of the chain's length and the target handles |
| WorkshopTwistChainStep2.TwistChainStep2Job.ProcessAnimation | Assets/AnimationRiggingWorkshop/Constraints/TwistChainStep2.cs:22-39 | target rotations read first, each joint blended toward `Lerp(rootRot, tipRot, steps[i])`, target positions written after the loop |
| WorkshopTwistChainStep2.Create | Assets/AnimationRiggingWorkshop/Constraints/TwistChainStep2.cs:61-84 | `chain` and `steps` have one length: the extracted path and its steps |
| WorkshopTwistChainStep2.Update | Assets/AnimationRiggingWorkshop/Constraints/TwistChainStep2.cs:92-94 | chain and steps never change after binding |
| WorkshopTwistChainStep2.StepsAreLinearCurveWeights | Assets/AnimationRiggingWorkshop/Constraints/TwistChainStep2.cs:33 | blending by the raw steps is blending by the weights of the linear curve |
| WorkshopTwistChainStep1.IsValid | Assets/AnimationRiggingWorkshop/Constraints/TwistChainStep1.cs:47 | valid iff root, tip and both targets are set and tip lies under root |
| WorkshopTwistChainStep1.SetDefaultValues | Assets/AnimationRiggingWorkshop/Constraints/TwistChainStep1.cs:49-52 | transforms unset, invalid |
| WorkshopTwistChainStep1.TwistChainStep1Job.constructor | Assets/AnimationRiggingWorkshop/Constraints/TwistChainStep1.cs:67-68 | two fresh arrays of the chain's length and the target handles |
| WorkshopTwistChainStep1.TwistChainStep1Job.ProcessAnimation | Assets/AnimationRiggingWorkshop/Constraints/TwistChainStep1.cs:22-35 | the stream is unchanged |
| WorkshopTwistChainStep1.Create | Assets/AnimationRiggingWorkshop/Constraints/TwistChainStep1.cs:57-80 | `chain` and `steps` have one length: the extracted path and its steps |
| WorkshopTwistChainStep1.Update | Assets/AnimationRiggingWorkshop/Constraints/TwistChainStep1.cs:88-90 | chain and steps never change |
| TwistChainStep1.IsValid | Assets/Constraints/TwistChainStep1.cs:50 | valid iff root, tip and both targets are set and tip lies under root |
| TwistChainStep1.SetDefaultValues | Assets/Constraints/TwistChainStep1.cs:52-55 | transforms unset, invalid |
| TwistChainStep1.InverseLerp | Assets/Constraints/TwistChainStep1.cs:31 | `Mathf.InverseLerp`: in [0, 1], 0 when both ends coincide, `(v - a) / (b - a)` for a value between a < b |
| TwistChainStep1.IndexWeights | Assets/Constraints/TwistChainStep1.cs:29-33 | one index weight per joint, all in [0, 1] |
| TwistChainStep1.IndexWeightAt | Assets/Constraints/TwistChainStep1.cs:31 | joint i of N >= 2 gets i / (N - 1), and the tip gets 1 |
| TwistChainStep1.IndexWeightsMonotone | Assets/Constraints/TwistChainStep1.cs:31 | index weights never decrease along the chain |
| TwistChainStep1.IndexWeightsShape | Assets/Constraints/TwistChainStep1.cs:31 | i / (N - 1): 0 at the root, 1 at the tip, non-decreasing; a single joint gets 0 |
| TwistChainStep1.SumEqualSegments | Assets/AnimationRiggingWorkshop/Constraints/ConstraintsUtils.cs:52-54 | on segments of equal length L, the length accumulated up to joint k is k L |
| TwistChainStep1.SegmentRatio | Assets/Constraints/TwistChainStep1.cs:31 | i equal segments over N - 1 equal segments is i / (N - 1) |
| TwistChainStep1.EqualSegmentsStepAt | Assets/Constraints/TwistChainStep1.cs:31 | on equal segments the arc-length step of joint i is i / (N - 1) |
| TwistChainStep1.EqualSegmentsStepsAreIndexWeights | Assets/Constraints/TwistChainStep1.cs:31 | on equal segments the arc-length steps of the other variants equal this variant's index weights |
| TwistChainStep1.TwistChainStep1Job.constructor | Assets/Constraints/TwistChainStep1.cs:67-69 | a fresh chain array of the extracted length and the target handles |
| TwistChainStep1.TwistChainStep1Job.ProcessAnimation | Assets/Constraints/TwistChainStep1.cs:20-38 | no gate: target rotations read first, joint i blended toward `Lerp(rootRot, tipRot, InverseLerp(0, N - 1, i))`, then target positions track the chain ends |
| TwistChainStep1.Create | Assets/Constraints/TwistChainStep1.cs:60-75 | one handle per joint of the extracted chain, in order |
| TwistChainStep1.Update | Assets/Constraints/TwistChainStep1.cs:82-84 | the bound chain never changes |
| CopyBlend.CopyPosition | Assets/Constraints/CopyLocation.cs:24-35 | w <= 0 leaves every position; w > 0 moves only the constrained handle, to `lerp(current, source * mask, w)` |
| CopyBlend.FullWeightCopiesMaskedSource | Assets/Constraints/CopyLocation.cs:32-35 | at weight 1 the constrained position is exactly `source * mask` |
| CopyBlend.FullWeightCopyIdempotent | Assets/Constraints/CopyLocation.cs:32-35 | a second full-weight copy of a distinct source changes nothing |
| CopyBlend.SelfCopyTwiceRestores | Assets/Constraints/CopyLocation.cs:26-35 | a handle constrained to itself is mirrored by the mask and mirrored back by a second frame |
| CopyLocation.CopyLocationJob.ProcessAnimation | Assets/Constraints/CopyLocation.cs:21-37 | positions become `CopyPosition` with the mask of the three flags; rotations unchanged, only the constrained handle written |
| CopyLocation.IsValid | Assets/Constraints/CopyLocation.cs:49-52 | valid iff both objects are set |
| CopyLocation.IsValidIgnoresFlags | Assets/Constraints/CopyLocation.cs:49-52 | definitional: validity does not depend on the invert flags |
| CopyLocation.SetDefaultValues | Assets/Constraints/CopyLocation.cs:54-59 | objects unset, all flags false, so the mask is (1, 1, 1); invalid |
| CopyLocation.DefaultFlagsCopySource | Assets/Constraints/CopyLocation.cs:58 | with the default flags a full-weight frame copies the source unchanged |
| WorkshopCopyLocation.Uniform | Assets/AnimationRiggingWorkshop/Constraints/CopyLocation.cs:61 | definitional: `new Vector3Bool(val)` sets all three axes to val |
| WorkshopCopyLocation.CopyLocationJob.ProcessAnimation | Assets/AnimationRiggingWorkshop/Constraints/CopyLocation.cs:21-38 | positions become `CopyPosition` with the mask of `invert.x/y/z`; rotations unchanged |
| WorkshopCopyLocation.IsValid | Assets/AnimationRiggingWorkshop/Constraints/CopyLocation.cs:52-55 | valid iff both objects are set |
| WorkshopCopyLocation.IsValidIgnoresFlags | Assets/AnimationRiggingWorkshop/Constraints/CopyLocation.cs:52-55 | definitional: validity does not depend on `invert` |
| WorkshopCopyLocation.SetDefaultValues | Assets/AnimationRiggingWorkshop/Constraints/CopyLocation.cs:57-62 | objects unset, `invert` all false, so the mask is (1, 1, 1); invalid |
| WorkshopCopyLocation.InvertXOnlyMirrorsX | Assets/AnimationRiggingWorkshop/Constraints/CopyLocation.cs:26-36 | inverting only x at full weight takes source (2, 3, 4) to (-2, 3, 4) |
| CopyLocationStep1.CopyLocationStep1Job.ProcessAnimation | Assets/Constraints/CopyLocationStep1.cs:20-30 | positions become `CopyPosition` with the job's stored mask; the job is a value and is not changed |
| CopyLocationStep1.IsValid | Assets/Constraints/CopyLocationStep1.cs:44-47 | valid iff both objects are set |
| CopyLocationStep1.SetDefaultValues | Assets/Constraints/CopyLocationStep1.cs:49-54 | objects unset, all flags true; invalid |
| CopyLocationStep1.Create | Assets/Constraints/CopyLocationStep1.cs:59-69 | the bound mask is -1 on each flagged axis and 1 elsewhere, the same mask the finished job builds per frame |
| CopyLocationStep1.DefaultMaskNegates | Assets/Constraints/CopyLocationStep1.cs:53-67 | the default flags bind the mask (-1, -1, -1), which negates the source |
| WorkshopCopyLocationStep0.CopyLocationStep0Job.ProcessAnimation | Assets/AnimationRiggingWorkshop/Constraints/CopyLocationStep0.cs:19-31 | w > 0: the constrained position becomes `lerp(current, -source, w)`, the copy with all axes inverted; w <= 0: unchanged |
| WorkshopCopyLocationStep0.IsValid | Assets/AnimationRiggingWorkshop/Constraints/CopyLocationStep0.cs:42-45 | valid iff both objects are set |
| WorkshopCopyLocationStep0.SetDefaultValues | Assets/AnimationRiggingWorkshop/Constraints/CopyLocationStep0.cs:47-53 | both objects unset; invalid |
| WorkshopCopyLocationStep0.FullWeightNegatesSource | Assets/AnimationRiggingWorkshop/Constraints/CopyLocationStep0.cs:28 | at weight 1 the constrained position is exactly `-source` |
| WorkshopHelloWorld.HelloWorldJob.ProcessAnimation | Assets/AnimationRiggingWorkshop/Constraints/HelloWorld.cs:17-27 | w > 0: the constrained position becomes `lerp(current, -source, w)`; w <= 0: unchanged; the source is only read |
| WorkshopHelloWorld.IsValid | Assets/AnimationRiggingWorkshop/Constraints/HelloWorld.cs:36-39 | valid iff both objects are set |
| WorkshopHelloWorld.SetDefaultValues | Assets/AnimationRiggingWorkshop/Constraints/HelloWorld.cs:41-45 | both objects unset; invalid |

## Left out

- Forward kinematics: a handle's rotation and position are independent slots
  of the stream. Rotating a joint does not move its descendants, so the
  target positions are the chain ends' positions as the stream holds them.
  In the engine `GetRotation` and `SetRotation` are world-space. The rotation
  read for `chain[i]` therefore already includes the new rotation just
  written to `chain[i-1]`. `BlendedRotationsAt` instead uses the joint's own
  rotation from before the frame.
- `Quaternion.Lerp` and `AnimationCurve.Evaluate`: both are function
  parameters with no properties beyond what a lemma states as its hypothesis.
  Normalisation and spherical interpolation are not modelled.
- Floating point: all values are reals. Rounding of `magnitude`, of the
  division and of `math.lerp` is not modelled.
- A zero total chain length (including a single-joint chain, whose only
  length is 0): the source's `0/0` yields NaN. The steps-based binders
  require a positive total instead.
- `ConstraintsUtils.ExtractChain` and `WorkshopConstraintsUtils.ExtractChain`:
  `List.Reverse` in place and `ToArray` are modelled by the value they
  produce, a reversed sequence. The utilities return sequences rather than
  arrays.
- `TwistChain.Create`: its inline loops are written as the helper methods
  `WalkChain`, `ChainLengths` and `FillStepsAndWeights`, called in the
  source's order. The workshop's `ExtractSteps` calls `SumAll` and
  `AccumulateSteps` in the same way.
- Reads of the stream-resolved properties (`jobWeight.Get`,
  `BoolProperty.Get`, `Vector3BoolProperty.Get`) are method parameters.
- Handle binding (`ReadWriteTransformHandle.Bind`, `ReadOnlyTransformHandle.Bind`,
  `Vector3BoolProperty.Bind`, `PropertyUtils`) is not modelled: a bound
  handle is identified with its transform. For that reason the binders of
  CopyLocation, the workshop CopyLocation, CopyLocationStep0 and HelloWorld,
  which only bind handles, have no model.
- `SyncSceneToStream`, the `RigConstraint` base classes and Burst are
  engine plumbing.
- `ProcessRootMotion` is empty in every job, so it has no model.
- NativeArray allocation options, `Dispose` and the binders' `Destroy` are
  resource management. Dafny arrays are initialised, whereas the source asks
  for uninitialised memory. Every entry is written in `Create` before any
  use.
- `Transform.IsChildOf` is modelled over a fixed acyclic parent map.
  Reparenting while bound is not modelled.
- Null references are `Option` values. Unity's destroyed-object equality
  with null is not modelled.
- The exception paths of the binders are not modelled. The binders run only
  on valid data, so these members require it rather than model the throw:
  - `TwistChain.Create`, `WorkshopTwistChain.Create`,
    `WorkshopTwistChainStep2.Create` and `WorkshopTwistChainStep1.Create`
    require `IsValid`. Otherwise the walk up from tip would reach a scene root
    and throw a NullReferenceException.
  - `TwistChain.Update` and `WorkshopTwistChain.Update` require a curve.
    With a null curve, `Evaluate` throws a NullReferenceException.
  - `WorkshopConstraintsUtils.ExtractLengths` requires a non-empty chain.
    With an empty chain, `lengths[0]` throws an IndexOutOfRangeException.
- The precondition of each twist-chain `ProcessAnimation` that every chain
  handle and both targets are bound in the stream is what a successful
  `Create` guarantees in the engine. It is stated rather than derived.
- `TwistChainStep0` (both versions) and the editor tools (`HelperMenu`,
  `TwoBoneIKAutoSetup`, `NinjaCreator`) are stubs or scene tooling with no
  constraint logic.
- TwistChainStep1.InverseLerp: besides the range and the `a == b` case, the
  contract states the exact value only for a value inside [a, b] with a < b.
  That is the only case the job uses.
- TwistBlend.BlendedRotationsAt: the per-joint result is stated for chains
  without repeated joints. Every extracted chain is one
  (`Transforms.PathLinkedAndDistinct`).
