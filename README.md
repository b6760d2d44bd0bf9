# RigidBodyNode: the tree node of Simbody's rigid-body tree, in Dafny

This project models the abstract `RigidBodyNode` class of Simbody's internal
multibody tree (`src/RigidBodyNode.h`). A node stands for one body together
with its inboard joint, the joint that connects it to its parent. The model has
five parts:

- **Tree position.** Each node has `parent`, `children`, `level` and `nodeNum`,
  and the setters that link nodes into a tree. The tree invariant comes from the
  class's doc comment. Ground is the unique level-0 node. Every other node has
  exactly one parent, one level up. Each node lists exactly its own children,
  each of them once.
- **Coordinate slots.** `qIndex`, `uIndex` and `uSqIndex` start at -1 in a
  fresh node.
- **Joint frames.** `X_BJ` and `X_PJb` are fixed at construction. So are the
  derived constants `X_JB = ~X_BJ` and `refX_PB = X_PJb*~X_BJ`. For the
  expression `X_PJb*X_JbJ*X_JB` of the doc comment, the model proves two things:
  it equals `refX_PB` exactly when `X_JbJ` is the identity, and `X_JbJ` can be
  recovered from it. The rotation identities `R_XY*R_YX = I` and
  `~(R_ZX*R_XY) = ~R_XY*~R_ZX` are proved about rotations. Nothing in the model
  fills the `X_PB` cache entry from `X_JbJ`; the code that does is not part of
  this model.
- **Cache access.** The `fromB`/`toB` accessors, and the `get*`/`upd*` accessors
  built on them, read or write entry `nodeNum` of a per-body array. That array
  belongs to one of the caller's stage caches: configuration, motion, dynamics
  or reaction.
- **Base-class behaviour.** The `setDefault*Values`, `setMobilizerConfiguration`
  and `setMobilizerVelocity` hooks do nothing. The optional algorithm steps throw
  `VirtualBaseMethod`.

Files:

- `transforms.dfy` (module `Transforms`): rigid transforms as an exact group.
  Rotations are the 24 rotations of a cube, written as signed permutations of
  the axes. They do not commute, so identities that depend on the order of a
  product are checked.
  `Compose`, `Inverse` and `Identity` are each specified by their action on
  stations (`Apply`). Associativity, identity, inverse, inverse-of-product and
  cancellation are proved as lemmas. The node's frame identities use only these
  laws.
- `spatial.dfy` (module `SpatialTypes`): the per-body values stored in the
  caches (spatial vectors and matrices, inertia, shift operator, mass
  properties), as plain records.
- `state_cache.dfy` (module `StateCache`): the four stage caches as classes.
  Each holds one array per cached quantity, all of length `nBodies`, with no two
  entries sharing storage. `Entries()` gives the value of the whole cache, so
  the accessors can state what changes and what does not.
- `rigid_body_node.dfy` (module `RigidBodyNodes`): the class `RigidBodyNode`.
- `rigid_body_tree.dfy` (module `RigidBodyTree`): the tree invariant
  `WellFormedTree`, its consequences, and the construction of a tree with the
  node's setters.

A tree is the sequence of its nodes in `nodeNum` order: `nodes[k]` is the node
numbered `k`, and `nodes[0]` is Ground. The invariant also requires a parent to
be numbered before its children. The header does not say this. Nodes are
numbered as they are added to the tree, and `AddNode` shows the setters keep the
ordering. It gives the induction that proves every node's level counts its
ancestors.

The invariant has two parts. `TreeShape` covers numbering, parent links and
levels. `ChildLinks` says that each node's children list holds exactly the nodes
whose parent it is, each of them once.

The error path is a value. A base-class operation that throws
`VirtualBaseMethod` becomes a method that returns `Fail(VirtualBaseMethod)`, or
`Failure(VirtualBaseMethod)` for `getHRow`. These methods have no `modifies`
clause, so Dafny checks that they write none of their output arguments.

## Model

| member | source | states |
|---|---|---|
| Transforms.Identity | src/RigidBodyNode.h:37 | the identity transform leaves every station where it is |
| Transforms.Compose | src/RigidBodyNode.h:33-36 | X_AC = X_AB*X_BC re-expresses a station exactly as applying X_BC and then X_AB |
| Transforms.Inverse | src/RigidBodyNode.h:31-32 | ~X_AB undoes X_AB on every station |
| Transforms.RotateCompose | src/RigidBodyNode.h:33-36 | rotating by a composed rotation is rotating by each factor in turn |
| Transforms.RotateAdd | src/RigidBodyNode.h:30-31 | re-expressing a vector in another frame is linear |
| Transforms.RotTransposeIsInverse | src/RigidBodyNode.h:37 | R_XY*R_YX = I and R_YX*R_XY = I: the transpose is the inverse |
| Transforms.RotComposeAssociative | src/RigidBodyNode.h:32-36 | composition of rotations is associative, so frames can be matched up in any grouping |
| Transforms.RotComposeIdentity | src/RigidBodyNode.h:37 | the identity rotation is a left and a right unit |
| Transforms.RotTransposeOfCompose | src/RigidBodyNode.h:34-36 | ~(R_ZX*R_XY) = (~R_XY)*(~R_ZX), the chain giving R_YZ, derived from associativity, identity and R*~R = I alone |
| Transforms.RotationOrderMatters | src/RigidBodyNode.h:32-34 | some two rotations give different products in the two orders, so matching up the frames is required |
| Transforms.TransposeInSameOrderFails | src/RigidBodyNode.h:34-36 | some rotations have ~(R_ZX*R_XY) different from (~R_ZX)*(~R_XY): the factors must be reversed |
| Transforms.ComposeAssociative | src/RigidBodyNode.h:33-36 | composition of transforms is associative |
| Transforms.ComposeIdentity | src/RigidBodyNode.h:37 | the identity is a left and a right unit of composition |
| Transforms.ComposeInverse | src/RigidBodyNode.h:37 | X*~X = I and ~X*X = I |
| Transforms.InverseInvolutive | src/RigidBodyNode.h:31-32 | inverting twice gives back the transform |
| Transforms.InverseUnique | src/RigidBodyNode.h:31-32 | a transform Y with X*Y = I is ~X, so X_BA is determined by X_AB |
| Transforms.InverseOfCompose | src/RigidBodyNode.h:36 | ~(X*Y) = ~Y*~X, derived from the group laws alone |
| Transforms.ComposeCancelLeft | src/RigidBodyNode.h:49 | X*Y = X*Z holds exactly when Y = Z |
| Transforms.ComposeCancelRight | src/RigidBodyNode.h:49 | Y*X = Z*X holds exactly when Y = Z |
| RigidBodyNodes.RigidBodyNode.constructor | src/RigidBodyNode.h:446-453 | a fresh node has uIndex, qIndex, uSqIndex, level and nodeNum all -1, no parent and no children; it keeps the given mass properties, X_PJb and X_BJ, with X_JB = ~X_BJ and refX_PB = X_PJb*~X_BJ |
| RigidBodyNodes.RigidBodyNode.AddChild | src/RigidBodyNode.h:75-76 | the child becomes the last registered child: getNChildren grows by one, getChild of the last index returns it, and earlier children keep their indices |
| RigidBodyNodes.RigidBodyNode.SetParent | src/RigidBodyNode.h:77 | afterwards getParent returns the given node; no other field changes |
| RigidBodyNodes.RigidBodyNode.SetNodeNum | src/RigidBodyNode.h:78 | afterwards getNodeNum returns the given number; no other field changes |
| RigidBodyNodes.RigidBodyNode.SetLevel | src/RigidBodyNode.h:79-95 | afterwards getLevel returns i, isGroundNode holds exactly when i == 0 and isBaseNode exactly when i == 1; no other field changes |
| RigidBodyNodes.RigidBodyNode.GetChild | src/RigidBodyNode.h:84-85 | for i >= 0: the i-th registered child when i < getNChildren(), null otherwise |
| RigidBodyNodes.RigidBodyNode.ToB | src/RigidBodyNode.h:101-123 | writing through toB sets entry nodeNum, which fromB then returns, and leaves every other entry as it was |
| RigidBodyNodes.RigidBodyNode.JointFramesInverse | src/RigidBodyNode.h:478-481 | X_BJ*X_JB = I and X_JB*X_BJ = I for the constant X_JB computed on construction |
| RigidBodyNodes.RigidBodyNode.ReferenceConfiguration | src/RigidBodyNode.h:39-49 | X_PJb*X_JbJ*X_JB equals refX_PB exactly when X_JbJ is the identity (J == Jb) |
| RigidBodyNodes.RigidBodyNode.JointFromBodyInParent | src/RigidBodyNode.h:42-49 | the across-joint X_JbJ is recovered from X_PB = X_PJb*X_JbJ*X_JB as ~X_PJb*X_PB*X_BJ |
| RigidBodyNodes.RigidBodyNode.UpdX_JbJ | src/RigidBodyNode.h:151-152 | getX_JbJ then returns the value written; the configuration cache is otherwise unchanged |
| RigidBodyNodes.RigidBodyNode.UpdX_PB | src/RigidBodyNode.h:157-158 | getX_PB then returns the value written; the configuration cache is otherwise unchanged |
| RigidBodyNodes.RigidBodyNode.UpdX_GB | src/RigidBodyNode.h:163-168 | getX_GB then returns the value written; the configuration cache is otherwise unchanged |
| RigidBodyNodes.RigidBodyNode.UpdPhi | src/RigidBodyNode.h:171-172 | getPhi then returns the value written; the configuration cache is otherwise unchanged |
| RigidBodyNodes.RigidBodyNode.UpdMk | src/RigidBodyNode.h:176-177 | getMk then returns the value written; the configuration cache is otherwise unchanged |
| RigidBodyNodes.RigidBodyNode.UpdCOM_G | src/RigidBodyNode.h:181-182 | getCOM_G then returns the value written; the configuration cache is otherwise unchanged |
| RigidBodyNodes.RigidBodyNode.UpdCB_G | src/RigidBodyNode.h:185-186 | getCB_G then returns the value written; the configuration cache is otherwise unchanged |
| RigidBodyNodes.RigidBodyNode.UpdInertia_OB_G | src/RigidBodyNode.h:189-190 | getInertia_OB_G then returns the value written; the configuration cache is otherwise unchanged |
| RigidBodyNodes.RigidBodyNode.GetX_GP | src/RigidBodyNode.h:196 | needs a parent; returns the bodyConfigInGround entry at the parent's nodeNum |
| RigidBodyNodes.RigidBodyNode.UpdV_JbJ | src/RigidBodyNode.h:200-201 | getV_JbJ then returns the value written; the motion cache is otherwise unchanged |
| RigidBodyNodes.RigidBodyNode.UpdV_GB | src/RigidBodyNode.h:207-219 | getV_GB and getSpatialVel then return the value written, getSpatialAngVel and getSpatialLinVel its two halves; the motion cache is otherwise unchanged |
| RigidBodyNodes.RigidBodyNode.UpdV_PB_G | src/RigidBodyNode.h:214-215 | getV_PB_G then returns the value written; the motion cache is otherwise unchanged |
| RigidBodyNodes.RigidBodyNode.UpdA_GB | src/RigidBodyNode.h:228-233 | getA_GB and getSpatialAcc then return the value written, getSpatialAngAcc and getSpatialLinAcc its two halves; the reaction cache is otherwise unchanged |
| RigidBodyNodes.RigidBodyNode.UpdP | src/RigidBodyNode.h:235-236 | getP then returns the value written; the dynamics cache is otherwise unchanged |
| RigidBodyNodes.RigidBodyNode.UpdCoriolisAcceleration | src/RigidBodyNode.h:238-239 | getCoriolisAcceleration then returns the value written; the dynamics cache is otherwise unchanged |
| RigidBodyNodes.RigidBodyNode.UpdGyroscopicForce | src/RigidBodyNode.h:241-242 | getGyroscopicForce then returns the value written; the dynamics cache is otherwise unchanged |
| RigidBodyNodes.RigidBodyNode.UpdCentrifugalForces | src/RigidBodyNode.h:244-245 | getCentrifugalForces then returns the value written; the dynamics cache is otherwise unchanged |
| RigidBodyNodes.RigidBodyNode.UpdZ | src/RigidBodyNode.h:247-248 | getZ then returns the value written; the reaction cache is otherwise unchanged |
| RigidBodyNodes.RigidBodyNode.UpdGepsilon | src/RigidBodyNode.h:250-251 | getGepsilon then returns the value written; the reaction cache is otherwise unchanged |
| RigidBodyNodes.RigidBodyNode.UpdPsi | src/RigidBodyNode.h:253-254 | getPsi then returns the value written; the dynamics cache is otherwise unchanged |
| RigidBodyNodes.RigidBodyNode.UpdTauBar | src/RigidBodyNode.h:256-257 | getTauBar then returns the value written; the dynamics cache is otherwise unchanged |
| RigidBodyNodes.RigidBodyNode.UpdY | src/RigidBodyNode.h:259-260 | getY then returns the value written; the dynamics cache is otherwise unchanged |
| RigidBodyNodes.RigidBodyNode.SetDefaultModelingValues | src/RigidBodyNode.h:293 | the modeling variables come back unchanged |
| RigidBodyNodes.RigidBodyNode.SetDefaultParameterValues | src/RigidBodyNode.h:294 | the parameter variables come back unchanged |
| RigidBodyNodes.RigidBodyNode.SetDefaultTimeValues | src/RigidBodyNode.h:295 | the time variables come back unchanged |
| RigidBodyNodes.RigidBodyNode.SetDefaultConfigurationValues | src/RigidBodyNode.h:296 | q is left as it was |
| RigidBodyNodes.RigidBodyNode.SetDefaultMotionValues | src/RigidBodyNode.h:297 | u is left as it was |
| RigidBodyNodes.RigidBodyNode.SetDefaultDynamicsValues | src/RigidBodyNode.h:298 | the dynamics variables come back unchanged |
| RigidBodyNodes.RigidBodyNode.SetDefaultReactionValues | src/RigidBodyNode.h:299 | the reaction variables come back unchanged |
| RigidBodyNodes.RigidBodyNode.SetMobilizerConfiguration | src/RigidBodyNode.h:301-304 | q is left as it was, whatever X_JbJ is requested |
| RigidBodyNodes.RigidBodyNode.SetMobilizerVelocity | src/RigidBodyNode.h:305-306 | u is left as it was, whatever V_JbJ is requested |
| RigidBodyNodes.RigidBodyNode.Type | src/RigidBodyNode.h:331 | the base type name is "unknown" |
| RigidBodyNodes.RigidBodyNode.CalcZ | src/RigidBodyNode.h:344-349 | always fails with VirtualBaseMethod and writes nothing |
| RigidBodyNodes.RigidBodyNode.CalcYOutward | src/RigidBodyNode.h:351-354 | always fails with VirtualBaseMethod and writes nothing |
| RigidBodyNodes.RigidBodyNode.CalcAccel | src/RigidBodyNode.h:356-365 | always fails with VirtualBaseMethod and writes nothing |
| RigidBodyNodes.RigidBodyNode.CalcInternalGradientFromSpatial | src/RigidBodyNode.h:367-372 | always fails with VirtualBaseMethod and writes nothing |
| RigidBodyNodes.RigidBodyNode.CalcEquivalentJointForces | src/RigidBodyNode.h:374-381 | always fails with VirtualBaseMethod and writes nothing |
| RigidBodyNodes.RigidBodyNode.CalcUDotPass1Inward | src/RigidBodyNode.h:383-391 | always fails with VirtualBaseMethod and writes nothing |
| RigidBodyNodes.RigidBodyNode.CalcUDotPass2Outward | src/RigidBodyNode.h:393-399 | always fails with VirtualBaseMethod and writes nothing |
| RigidBodyNodes.RigidBodyNode.CalcQDot | src/RigidBodyNode.h:401-407 | always fails with VirtualBaseMethod and writes nothing |
| RigidBodyNodes.RigidBodyNode.CalcQDotDot | src/RigidBodyNode.h:409-416 | always fails with VirtualBaseMethod and writes nothing |
| RigidBodyNodes.RigidBodyNode.SetVelFromSVel | src/RigidBodyNode.h:418-419 | always fails with VirtualBaseMethod and writes nothing |
| RigidBodyNodes.RigidBodyNode.SetQ | src/RigidBodyNode.h:421-425 | always fails with VirtualBaseMethod and writes nothing |
| RigidBodyNodes.RigidBodyNode.SetU | src/RigidBodyNode.h:427-431 | always fails with VirtualBaseMethod and writes nothing |
| RigidBodyNodes.RigidBodyNode.GetInternalForce | src/RigidBodyNode.h:433-435 | always fails with VirtualBaseMethod and writes nothing |
| RigidBodyNodes.RigidBodyNode.GetHRow | src/RigidBodyNode.h:437-438 | always fails with VirtualBaseMethod and returns no row |
| RigidBodyTree.NodeAtItsNumber | src/RigidBodyNode.h:464 | nodeNum is a node's unique number: in a well-formed tree each node sits at index nodeNum |
| RigidBodyTree.LevelCountsAncestors | src/RigidBodyNode.h:87-90 | a node's level equals the number of parent links from it up to Ground, so every non-Ground node has level at least 1 |
| RigidBodyTree.GroundIsUniqueLevelZero | src/RigidBodyNode.h:19-21 | in a well-formed tree, isGroundNode holds of a node exactly when it is Ground |
| RigidBodyTree.BaseNodesHangFromGround | src/RigidBodyNode.h:21-23 | in a well-formed tree, isBaseNode holds exactly of the nodes whose parent is Ground |
| RigidBodyTree.ExactlyOneParent | src/RigidBodyNode.h:23-26 | a node is among p's children exactly when p is its parent, and Ground is nobody's child |
| RigidBodyTree.NChildrenCountsChildren | src/RigidBodyNode.h:24-26 | in a well-formed tree, getNChildren() of a node equals the number of nodes whose parent it is: no child is registered twice |
| RigidBodyTree.ChildLevel | src/RigidBodyNode.h:24-26 | every child of a node is in the tree, one level below it |
| RigidBodyTree.DistinctSlots | src/RigidBodyNode.h:100-123 | two nodes of a tree share a cache entry only if they are the same node |
| RigidBodyTree.MakeGround | src/RigidBodyNode.h:19-21 | a fresh node given level 0 and number 0 is a well-formed one-node tree whose node is Ground |
| RigidBodyTree.Link | src/RigidBodyNode.h:75-79 | setLevel, setNodeNum, setParent and addChild together hang the child below p: its level is one below p's, its number and parent are set, p lists it last, and nothing else changes |
| RigidBodyTree.TreeExtend | src/RigidBodyNode.h:19-26 | a tree extended by a node that hangs one level below nodes[pk] and is appended to nodes[pk]'s children is again a well-formed tree |
| RigidBodyTree.AddNode | src/RigidBodyNode.h:19-26 | linking a fresh node below p with setLevel, setNodeNum, setParent and addChild keeps the tree well formed |
| RigidBodyTree.StoreX_GB | src/RigidBodyNode.h:163-196 | when a node writes its X_GB, no other node's entry changes and each child reads the new value as getX_GP |

## Left out

- Simbody/examples/ExampleGeodesic.cpp is not part of this model. It is a demo program that drives visualization and prints.
- trunk/src/InteriorPointOptimizer.h is not part of this model. It wraps a foreign numerical optimizer.
- The pure virtual operations are not modelled, because their bodies belong to the concrete joint types, which are not part of this model. They are `realizeModeling`, `realizeParameters`, `realizeConfiguration`, `realizeMotion`, `calcArticulatedBodyInertiasInward`, `getDOF`, `getMaxNQ`, `getNQ` and `enforceQuaternionConstraints`.
- Some members are declared in the header but defined elsewhere: `create`, `operator=`, `calcKineticEnergy`, `calcJointIndependentKinematicsPos`, `calcJointIndependentKinematicsVel` and `calcJointIndependentDynamicsVel`. Their definitions are not part of this model.
- The numbers a transform holds are not modelled as floating point. A transform's rotation is one of the 24 rotations of a cube, and its translation is exact. This group does not commute, and every law holds in it exactly, so the frame identities are proved from the group laws. Rotations by other angles and rounding are not modelled.
- The computation of `X_PB = X_PJb*X_JbJ*X_JB` into the cache is not modelled. It is done by `realizeConfiguration` in the concrete joint types and by `calcJointIndependentKinematicsPos`, and neither is part of this model. `UpdX_PB` stores whatever value it is given.
- Spatial vectors, spatial matrices, inertias, shift operators and mass properties are plain records. Their arithmetic is not modelled.
- `inertia_CB_B` and `getInertia_CB_B` are not modelled. The value comes from `MassProperties::calcCentroidalInertia`, which is not part of this model.
- `nodeDump`, `nodeSpecDump` and `operator<<` are stream output.
- `velFromCartesian` is a protected hook with an empty body and no arguments, so there is nothing to state about it.
- The factory sets `uIndex`, `qIndex` and `uSqIndex`, so their assignment and the partition of the coordinate vectors are not modelled.
- AddChild: the body of `addChild` is in a source file that is not part of this model. It is modelled as appending the child, following its comment. The child is a non-null node.
- GetChild: the source does not guard a negative index, so the model requires `i >= 0`.
- ToB: `toB` and the `upd*` accessors return a reference that the caller writes through. The model takes the value the caller writes.
- ToB: the source indexes the array without a bound check. The model requires `0 <= nodeNum` and `nodeNum` below the array's length, and the `get*`/`upd*` accessors require the same against the cache's `nBodies`.
- GetX_GP: the source's `assert(parent)` becomes the precondition that the parent is not null.
- The simple getters are functions without their own contracts. They are `getParent`, `getNChildren`, `getLevel`, `getNodeNum`, `isGroundNode`, `isBaseNode`, `getUIndex`, `getQIndex`, `fromB`, every `get*` cache accessor, `getBodyForce`, `getUseEulerAngles`, `isPrescribed` and the constant getters. What they return is stated by the setters, `ToB`, the `upd*` methods and the tree lemmas.
- The SBModelingVars, SBParameterVars and other state structures are not modelled field by field. Modeling variables carry only `useEulerAngles` and `prescribed`. The other structures are type parameters of the default-value hooks.
