/**
 * A RigidBodyNode: one body together with its inboard joint, the joint that
 * connects it to its parent. It holds its place in the tree (parent, children,
 * level, nodeNum), the slots it owns in the global coordinate vectors
 * (qIndex, uIndex, uSqIndex) and the constant joint frames fixed at
 * construction. It owns no cache storage: every per-body quantity lives in a
 * stage cache held by the caller, and the node only knows which entry is its
 * own, entry nodeNum.
 *
 * Frames: B is this body's frame, P its parent's, J the inboard joint frame
 * fixed on B, Jb the joint's attachment frame fixed on P. With X_JbJ the
 * across-joint transform, the body sits in its parent at X_PB == X_PJb*X_JbJ*X_JB.
 */
module RigidBodyNodes {
  import opened Transforms
  import opened SpatialTypes
  import opened StateCache

  /** The exception the base class throws from operations only concrete joints provide. */
  datatype NodeError = VirtualBaseMethod

  /** The outcome of an operation that returns nothing or throws. */
  datatype Outcome = Pass | Fail(error: NodeError)

  /** The outcome of an operation that returns a value or throws. */
  datatype Result<T> = Success(value: T) | Failure(error: NodeError)

  class RigidBodyNode {
    var uIndex: int     // index into the generalized speed and acceleration arrays
    var qIndex: int     // index into the generalized coordinate array
    var uSqIndex: int   // index into the array of DOF^2 objects

    var parent: RigidBodyNode?
    var children: seq<RigidBodyNode>
    var level: int      // number of ancestors between this node and Ground
    var nodeNum: int    // unique number of this node in its tree

    /** Mass properties as supplied, about the body origin, in B. */
    const massProps_B: MassProperties

    /** The inboard joint frame J, measured and expressed in B. */
    const X_BJ: Transform

    /** The parent's attachment frame Jb for this joint, measured and expressed in P. */
    const X_PJb: Transform

    /** Computed on construction: the inverse of X_BJ. */
    const X_JB: Transform := Inverse(X_BJ)

    /**
     * Computed on construction: B in P in the reference configuration, where
     * all joint coordinates are zero and so J == Jb.
     */
    const refX_PB: Transform := Compose(X_PJb, Inverse(X_BJ))

    /** A fresh node is not yet in a tree and owns no coordinate slots. */
    constructor (mProps_B: MassProperties, xform_PJb: Transform, xform_BJ: Transform)
      ensures uIndex == -1 && qIndex == -1 && uSqIndex == -1
      ensures parent == null && children == []
      ensures level == -1 && nodeNum == -1
      ensures massProps_B == mProps_B && X_PJb == xform_PJb && X_BJ == xform_BJ
      ensures X_JB == Inverse(xform_BJ) && refX_PB == Compose(xform_PJb, Inverse(xform_BJ))
    {
      uIndex, qIndex, uSqIndex := -1, -1, -1;
      parent, children := null, [];
      level, nodeNum := -1, -1;
      massProps_B, X_PJb, X_BJ := mProps_B, xform_PJb, xform_BJ;
    }

    // -------------------------------------------------------------------------
    // Tree construction

    /** Register child as the last child of this node. */
    method AddChild(child: RigidBodyNode)
      modifies this`children
      ensures children == old(children) + [child]
      ensures GetNChildren() == old(GetNChildren()) + 1
      ensures GetChild(GetNChildren() - 1) == child
      ensures forall i :: 0 <= i < old(GetNChildren()) ==> GetChild(i) == old(GetChild(i))
    {
      children := children + [child];
    }

    method SetParent(p: RigidBodyNode?)
      modifies this`parent
      ensures GetParent() == p
    {
      parent := p;
    }

    method SetNodeNum(n: int)
      modifies this`nodeNum
      ensures GetNodeNum() == n
    {
      nodeNum := n;
    }

    method SetLevel(i: int)
      modifies this`level
      ensures GetLevel() == i
      ensures IsGroundNode() <==> i == 0
      ensures IsBaseNode() <==> i == 1
    {
      level := i;
    }

    // -------------------------------------------------------------------------
    // Topological information

    function GetParent(): RigidBodyNode? reads this { parent }

    function GetNChildren(): int reads this { |children| }

    /** The i-th registered child, or null past the end (a negative i is not guarded). */
    function GetChild(i: int): (c: RigidBodyNode?)
      reads this
      requires 0 <= i
      ensures i < GetNChildren() ==> c == children[i] && c in children
      ensures i >= GetNChildren() ==> c == null
    {
      if i < |children| then children[i] else null
    }

    function GetLevel(): int reads this { level }

    function GetNodeNum(): int reads this { nodeNum }

    predicate IsGroundNode() reads this { level == 0 }

    predicate IsBaseNode() reads this { level == 1 }

    function GetUIndex(): int reads this { uIndex }

    function GetQIndex(): int reads this { qIndex }

    // -------------------------------------------------------------------------
    // This node's entry of a per-body array

    function FromB<T>(x: array<T>): T
      reads this, x
      requires 0 <= nodeNum < x.Length
    {
      x[nodeNum]
    }

    /** Write this node's entry; every other entry keeps its value. */
    method ToB<T>(x: array<T>, v: T)
      requires 0 <= nodeNum < x.Length
      modifies x
      ensures x[..] == old(x[..])[nodeNum := v]
      ensures FromB(x) == v
    {
      x[nodeNum] := v;
    }

    // -------------------------------------------------------------------------
    // Modeling and parametrization information

    function GetUseEulerAngles(mv: ModelingVars): bool { mv.useEulerAngles }

    function IsPrescribed(mv: ModelingVars): bool
      reads this
      requires 0 <= nodeNum < |mv.prescribed|
    {
      mv.prescribed[nodeNum]
    }

    function GetMassProperties(): MassProperties { massProps_B }
    function GetMass(): real { massProps_B.mass }
    function GetCOM_B(): Vec3 { massProps_B.com }
    function GetInertia_OB_B(): InertiaMat { massProps_B.inertia }
    function GetX_BJ(): Transform { X_BJ }
    function GetX_PJb(): Transform { X_PJb }
    function GetX_JB(): Transform { X_JB }
    function GetRefX_PB(): Transform { refX_PB }

    /** J and B are related by X_BJ and X_JB, each undoing the other. */
    lemma JointFramesInverse()
      ensures Compose(X_BJ, X_JB) == Identity()
      ensures Compose(X_JB, X_BJ) == Identity()
    {
      ComposeInverse(X_BJ);
    }

    /**
     * X_PB == X_PJb*X_JbJ*X_JB is the reference configuration refX_PB exactly
     * when the across-joint transform X_JbJ is the identity (J == Jb).
     */
    lemma ReferenceConfiguration(X_JbJ: Transform)
      ensures Compose(Compose(X_PJb, X_JbJ), X_JB) == refX_PB <==> X_JbJ == Identity()
    {
      ComposeIdentity(X_PJb);
      ComposeCancelLeft(X_PJb, X_JbJ, Identity());
      ComposeCancelRight(X_JB, Compose(X_PJb, X_JbJ), X_PJb);
    }

    /** The across-joint transform is recovered from X_PB as ~X_PJb*X_PB*X_BJ. */
    lemma JointFromBodyInParent(X_JbJ: Transform)
      ensures Compose(Compose(Inverse(X_PJb), Compose(Compose(X_PJb, X_JbJ), X_JB)), X_BJ) == X_JbJ
    {
      var X_PB := Compose(Compose(X_PJb, X_JbJ), X_JB);
      calc {
        Compose(Compose(Inverse(X_PJb), X_PB), X_BJ);
        { ComposeAssociative(Inverse(X_PJb), X_PB, X_BJ); }
        Compose(Inverse(X_PJb), Compose(X_PB, X_BJ));
        { ComposeAssociative(Compose(X_PJb, X_JbJ), X_JB, X_BJ); }
        Compose(Inverse(X_PJb), Compose(Compose(X_PJb, X_JbJ), Compose(X_JB, X_BJ)));
        { ComposeInverse(X_BJ); ComposeIdentity(Compose(X_PJb, X_JbJ)); }
        Compose(Inverse(X_PJb), Compose(X_PJb, X_JbJ));
        { ComposeAssociative(Inverse(X_PJb), X_PJb, X_JbJ); }
        Compose(Compose(Inverse(X_PJb), X_PJb), X_JbJ);
        { ComposeInverse(X_PJb); ComposeIdentity(X_JbJ); }
        X_JbJ;
      }
    }

    // -------------------------------------------------------------------------
    // Configuration information

    function GetX_JbJ(cc: ConfigurationCache): Transform
      reads this, cc.bodyJointInParentJointFrame
      requires cc.Valid() && 0 <= nodeNum < cc.nBodies
    {
      FromB(cc.bodyJointInParentJointFrame)
    }

    method UpdX_JbJ(cc: ConfigurationCache, X_JbJ: Transform)
      requires cc.Valid() && 0 <= nodeNum < cc.nBodies
      modifies cc.bodyJointInParentJointFrame
      ensures GetX_JbJ(cc) == X_JbJ
      ensures cc.Entries() == old(cc.Entries()).(bodyJointInParentJointFrame :=
                old(cc.Entries()).bodyJointInParentJointFrame[nodeNum := X_JbJ])
    {
      ToB(cc.bodyJointInParentJointFrame, X_JbJ);
    }

    function GetX_PB(cc: ConfigurationCache): Transform
      reads this, cc.bodyConfigInParent
      requires cc.Valid() && 0 <= nodeNum < cc.nBodies
    {
      FromB(cc.bodyConfigInParent)
    }

    method UpdX_PB(cc: ConfigurationCache, X_PB: Transform)
      requires cc.Valid() && 0 <= nodeNum < cc.nBodies
      modifies cc.bodyConfigInParent
      ensures GetX_PB(cc) == X_PB
      ensures cc.Entries() == old(cc.Entries()).(bodyConfigInParent :=
                old(cc.Entries()).bodyConfigInParent[nodeNum := X_PB])
    {
      ToB(cc.bodyConfigInParent, X_PB);
    }

    function GetX_GB(cc: ConfigurationCache): Transform
      reads this, cc.bodyConfigInGround
      requires cc.Valid() && 0 <= nodeNum < cc.nBodies
    {
      FromB(cc.bodyConfigInGround)
    }

    method UpdX_GB(cc: ConfigurationCache, X_GB: Transform)
      requires cc.Valid() && 0 <= nodeNum < cc.nBodies
      modifies cc.bodyConfigInGround
      ensures GetX_GB(cc) == X_GB
      ensures cc.Entries() == old(cc.Entries()).(bodyConfigInGround :=
                old(cc.Entries()).bodyConfigInGround[nodeNum := X_GB])
    {
      ToB(cc.bodyConfigInGround, X_GB);
    }

    function GetPhi(cc: ConfigurationCache): PhiMatrix
      reads this, cc.bodyToParentShift
      requires cc.Valid() && 0 <= nodeNum < cc.nBodies
    {
      FromB(cc.bodyToParentShift)
    }

    method UpdPhi(cc: ConfigurationCache, phi: PhiMatrix)
      requires cc.Valid() && 0 <= nodeNum < cc.nBodies
      modifies cc.bodyToParentShift
      ensures GetPhi(cc) == phi
      ensures cc.Entries() == old(cc.Entries()).(bodyToParentShift :=
                old(cc.Entries()).bodyToParentShift[nodeNum := phi])
    {
      ToB(cc.bodyToParentShift, phi);
    }

    function GetMk(cc: ConfigurationCache): SpatialMat
      reads this, cc.bodySpatialInertia
      requires cc.Valid() && 0 <= nodeNum < cc.nBodies
    {
      FromB(cc.bodySpatialInertia)
    }

    method UpdMk(cc: ConfigurationCache, Mk: SpatialMat)
      requires cc.Valid() && 0 <= nodeNum < cc.nBodies
      modifies cc.bodySpatialInertia
      ensures GetMk(cc) == Mk
      ensures cc.Entries() == old(cc.Entries()).(bodySpatialInertia :=
                old(cc.Entries()).bodySpatialInertia[nodeNum := Mk])
    {
      ToB(cc.bodySpatialInertia, Mk);
    }

    function GetCOM_G(cc: ConfigurationCache): Vec3
      reads this, cc.bodyCOMInGround
      requires cc.Valid() && 0 <= nodeNum < cc.nBodies
    {
      FromB(cc.bodyCOMInGround)
    }

    method UpdCOM_G(cc: ConfigurationCache, COM_G: Vec3)
      requires cc.Valid() && 0 <= nodeNum < cc.nBodies
      modifies cc.bodyCOMInGround
      ensures GetCOM_G(cc) == COM_G
      ensures cc.Entries() == old(cc.Entries()).(bodyCOMInGround :=
                old(cc.Entries()).bodyCOMInGround[nodeNum := COM_G])
    {
      ToB(cc.bodyCOMInGround, COM_G);
    }

    function GetCB_G(cc: ConfigurationCache): Vec3
      reads this, cc.bodyCOMStationInGround
      requires cc.Valid() && 0 <= nodeNum < cc.nBodies
    {
      FromB(cc.bodyCOMStationInGround)
    }

    method UpdCB_G(cc: ConfigurationCache, CB_G: Vec3)
      requires cc.Valid() && 0 <= nodeNum < cc.nBodies
      modifies cc.bodyCOMStationInGround
      ensures GetCB_G(cc) == CB_G
      ensures cc.Entries() == old(cc.Entries()).(bodyCOMStationInGround :=
                old(cc.Entries()).bodyCOMStationInGround[nodeNum := CB_G])
    {
      ToB(cc.bodyCOMStationInGround, CB_G);
    }

    function GetInertia_OB_G(cc: ConfigurationCache): InertiaMat
      reads this, cc.bodyInertiaInGround
      requires cc.Valid() && 0 <= nodeNum < cc.nBodies
    {
      FromB(cc.bodyInertiaInGround)
    }

    method UpdInertia_OB_G(cc: ConfigurationCache, I_OB_G: InertiaMat)
      requires cc.Valid() && 0 <= nodeNum < cc.nBodies
      modifies cc.bodyInertiaInGround
      ensures GetInertia_OB_G(cc) == I_OB_G
      ensures cc.Entries() == old(cc.Entries()).(bodyInertiaInGround :=
                old(cc.Entries()).bodyInertiaInGround[nodeNum := I_OB_G])
    {
      ToB(cc.bodyInertiaInGround, I_OB_G);
    }

    /** X_GP: the parent's body frame in ground, read from the parent's entry. */
    function GetX_GP(cc: ConfigurationCache): (X_GP: Transform)
      reads this, parent, cc.bodyConfigInGround
      requires parent != null
      requires cc.Valid() && 0 <= parent.nodeNum < cc.nBodies
      ensures X_GP == cc.bodyConfigInGround[parent.nodeNum]
    {
      parent.GetX_GB(cc)
    }

    // -------------------------------------------------------------------------
    // Velocity information

    function GetV_JbJ(mc: MotionCache): SpatialVec
      reads this, mc.mobilizerRelativeVelocity
      requires mc.Valid() && 0 <= nodeNum < mc.nBodies
    {
      FromB(mc.mobilizerRelativeVelocity)
    }

    method UpdV_JbJ(mc: MotionCache, V_JbJ: SpatialVec)
      requires mc.Valid() && 0 <= nodeNum < mc.nBodies
      modifies mc.mobilizerRelativeVelocity
      ensures GetV_JbJ(mc) == V_JbJ
      ensures mc.Entries() == old(mc.Entries()).(mobilizerRelativeVelocity :=
                old(mc.Entries()).mobilizerRelativeVelocity[nodeNum := V_JbJ])
    {
      ToB(mc.mobilizerRelativeVelocity, V_JbJ);
    }

    function GetV_GB(mc: MotionCache): SpatialVec
      reads this, mc.bodyVelocityInGround
      requires mc.Valid() && 0 <= nodeNum < mc.nBodies
    {
      FromB(mc.bodyVelocityInGround)
    }

    method UpdV_GB(mc: MotionCache, V_GB: SpatialVec)
      requires mc.Valid() && 0 <= nodeNum < mc.nBodies
      modifies mc.bodyVelocityInGround
      ensures GetV_GB(mc) == V_GB
      ensures GetSpatialVel(mc) == V_GB
      ensures GetSpatialAngVel(mc) == V_GB.angular && GetSpatialLinVel(mc) == V_GB.linear
      ensures mc.Entries() == old(mc.Entries()).(bodyVelocityInGround :=
                old(mc.Entries()).bodyVelocityInGround[nodeNum := V_GB])
    {
      ToB(mc.bodyVelocityInGround, V_GB);
    }

    function GetV_PB_G(mc: MotionCache): SpatialVec
      reads this, mc.bodyVelocityInParent
      requires mc.Valid() && 0 <= nodeNum < mc.nBodies
    {
      FromB(mc.bodyVelocityInParent)
    }

    method UpdV_PB_G(mc: MotionCache, V_PB_G: SpatialVec)
      requires mc.Valid() && 0 <= nodeNum < mc.nBodies
      modifies mc.bodyVelocityInParent
      ensures GetV_PB_G(mc) == V_PB_G
      ensures mc.Entries() == old(mc.Entries()).(bodyVelocityInParent :=
                old(mc.Entries()).bodyVelocityInParent[nodeNum := V_PB_G])
    {
      ToB(mc.bodyVelocityInParent, V_PB_G);
    }

    function GetSpatialVel(mc: MotionCache): SpatialVec
      reads this, mc.bodyVelocityInGround
      requires mc.Valid() && 0 <= nodeNum < mc.nBodies
    {
      GetV_GB(mc)
    }

    function GetSpatialAngVel(mc: MotionCache): Vec3
      reads this, mc.bodyVelocityInGround
      requires mc.Valid() && 0 <= nodeNum < mc.nBodies
    {
      GetV_GB(mc).angular
    }

    function GetSpatialLinVel(mc: MotionCache): Vec3
      reads this, mc.bodyVelocityInGround
      requires mc.Valid() && 0 <= nodeNum < mc.nBodies
    {
      GetV_GB(mc).linear
    }

    // -------------------------------------------------------------------------
    // Dynamics information

    function GetBodyForce(dc: DynamicsCache): SpatialVec
      reads this, dc.appliedRigidBodyForces
      requires dc.Valid() && 0 <= nodeNum < dc.nBodies
    {
      FromB(dc.appliedRigidBodyForces)
    }

    function GetP(dc: DynamicsCache): SpatialMat
      reads this, dc.articulatedBodyInertia
      requires dc.Valid() && 0 <= nodeNum < dc.nBodies
    {
      FromB(dc.articulatedBodyInertia)
    }

    method UpdP(dc: DynamicsCache, P: SpatialMat)
      requires dc.Valid() && 0 <= nodeNum < dc.nBodies
      modifies dc.articulatedBodyInertia
      ensures GetP(dc) == P
      ensures dc.Entries() == old(dc.Entries()).(articulatedBodyInertia :=
                old(dc.Entries()).articulatedBodyInertia[nodeNum := P])
    {
      ToB(dc.articulatedBodyInertia, P);
    }

    function GetCoriolisAcceleration(dc: DynamicsCache): SpatialVec
      reads this, dc.coriolisAcceleration
      requires dc.Valid() && 0 <= nodeNum < dc.nBodies
    {
      FromB(dc.coriolisAcceleration)
    }

    method UpdCoriolisAcceleration(dc: DynamicsCache, a: SpatialVec)
      requires dc.Valid() && 0 <= nodeNum < dc.nBodies
      modifies dc.coriolisAcceleration
      ensures GetCoriolisAcceleration(dc) == a
      ensures dc.Entries() == old(dc.Entries()).(coriolisAcceleration :=
                old(dc.Entries()).coriolisAcceleration[nodeNum := a])
    {
      ToB(dc.coriolisAcceleration, a);
    }

    function GetGyroscopicForce(dc: DynamicsCache): SpatialVec
      reads this, dc.gyroscopicForces
      requires dc.Valid() && 0 <= nodeNum < dc.nBodies
    {
      FromB(dc.gyroscopicForces)
    }

    method UpdGyroscopicForce(dc: DynamicsCache, f: SpatialVec)
      requires dc.Valid() && 0 <= nodeNum < dc.nBodies
      modifies dc.gyroscopicForces
      ensures GetGyroscopicForce(dc) == f
      ensures dc.Entries() == old(dc.Entries()).(gyroscopicForces :=
                old(dc.Entries()).gyroscopicForces[nodeNum := f])
    {
      ToB(dc.gyroscopicForces, f);
    }

    function GetCentrifugalForces(dc: DynamicsCache): SpatialVec
      reads this, dc.centrifugalForces
      requires dc.Valid() && 0 <= nodeNum < dc.nBodies
    {
      FromB(dc.centrifugalForces)
    }

    method UpdCentrifugalForces(dc: DynamicsCache, f: SpatialVec)
      requires dc.Valid() && 0 <= nodeNum < dc.nBodies
      modifies dc.centrifugalForces
      ensures GetCentrifugalForces(dc) == f
      ensures dc.Entries() == old(dc.Entries()).(centrifugalForces :=
                old(dc.Entries()).centrifugalForces[nodeNum := f])
    {
      ToB(dc.centrifugalForces, f);
    }

    function GetPsi(dc: DynamicsCache): SpatialMat
      reads this, dc.psi
      requires dc.Valid() && 0 <= nodeNum < dc.nBodies
    {
      FromB(dc.psi)
    }

    method UpdPsi(dc: DynamicsCache, psi: SpatialMat)
      requires dc.Valid() && 0 <= nodeNum < dc.nBodies
      modifies dc.psi
      ensures GetPsi(dc) == psi
      ensures dc.Entries() == old(dc.Entries()).(psi := old(dc.Entries()).psi[nodeNum := psi])
    {
      ToB(dc.psi, psi);
    }

    function GetTauBar(dc: DynamicsCache): SpatialMat
      reads this, dc.tauBar
      requires dc.Valid() && 0 <= nodeNum < dc.nBodies
    {
      FromB(dc.tauBar)
    }

    method UpdTauBar(dc: DynamicsCache, tauBar: SpatialMat)
      requires dc.Valid() && 0 <= nodeNum < dc.nBodies
      modifies dc.tauBar
      ensures GetTauBar(dc) == tauBar
      ensures dc.Entries() == old(dc.Entries()).(tauBar := old(dc.Entries()).tauBar[nodeNum := tauBar])
    {
      ToB(dc.tauBar, tauBar);
    }

    function GetY(dc: DynamicsCache): SpatialMat
      reads this, dc.Y
      requires dc.Valid() && 0 <= nodeNum < dc.nBodies
    {
      FromB(dc.Y)
    }

    method UpdY(dc: DynamicsCache, Y: SpatialMat)
      requires dc.Valid() && 0 <= nodeNum < dc.nBodies
      modifies dc.Y
      ensures GetY(dc) == Y
      ensures dc.Entries() == old(dc.Entries()).(Y := old(dc.Entries()).Y[nodeNum := Y])
    {
      ToB(dc.Y, Y);
    }

    // -------------------------------------------------------------------------
    // Reaction information

    function GetA_GB(rc: ReactionCache): SpatialVec
      reads this, rc.bodyAccelerationInGround
      requires rc.Valid() && 0 <= nodeNum < rc.nBodies
    {
      FromB(rc.bodyAccelerationInGround)
    }

    method UpdA_GB(rc: ReactionCache, A_GB: SpatialVec)
      requires rc.Valid() && 0 <= nodeNum < rc.nBodies
      modifies rc.bodyAccelerationInGround
      ensures GetA_GB(rc) == A_GB
      ensures GetSpatialAcc(rc) == A_GB
      ensures GetSpatialAngAcc(rc) == A_GB.angular && GetSpatialLinAcc(rc) == A_GB.linear
      ensures rc.Entries() == old(rc.Entries()).(bodyAccelerationInGround :=
                old(rc.Entries()).bodyAccelerationInGround[nodeNum := A_GB])
    {
      ToB(rc.bodyAccelerationInGround, A_GB);
    }

    function GetSpatialAcc(rc: ReactionCache): SpatialVec
      reads this, rc.bodyAccelerationInGround
      requires rc.Valid() && 0 <= nodeNum < rc.nBodies
    {
      GetA_GB(rc)
    }

    function GetSpatialAngAcc(rc: ReactionCache): Vec3
      reads this, rc.bodyAccelerationInGround
      requires rc.Valid() && 0 <= nodeNum < rc.nBodies
    {
      GetA_GB(rc).angular
    }

    function GetSpatialLinAcc(rc: ReactionCache): Vec3
      reads this, rc.bodyAccelerationInGround
      requires rc.Valid() && 0 <= nodeNum < rc.nBodies
    {
      GetA_GB(rc).linear
    }

    function GetZ(rc: ReactionCache): SpatialVec
      reads this, rc.z
      requires rc.Valid() && 0 <= nodeNum < rc.nBodies
    {
      FromB(rc.z)
    }

    method UpdZ(rc: ReactionCache, z: SpatialVec)
      requires rc.Valid() && 0 <= nodeNum < rc.nBodies
      modifies rc.z
      ensures GetZ(rc) == z
      ensures rc.Entries() == old(rc.Entries()).(z := old(rc.Entries()).z[nodeNum := z])
    {
      ToB(rc.z, z);
    }

    function GetGepsilon(rc: ReactionCache): SpatialVec
      reads this, rc.Gepsilon
      requires rc.Valid() && 0 <= nodeNum < rc.nBodies
    {
      FromB(rc.Gepsilon)
    }

    method UpdGepsilon(rc: ReactionCache, Gepsilon: SpatialVec)
      requires rc.Valid() && 0 <= nodeNum < rc.nBodies
      modifies rc.Gepsilon
      ensures GetGepsilon(rc) == Gepsilon
      ensures rc.Entries() == old(rc.Entries()).(Gepsilon := old(rc.Entries()).Gepsilon[nodeNum := Gepsilon])
    {
      ToB(rc.Gepsilon, Gepsilon);
    }

    // -------------------------------------------------------------------------
    // Default values: the base class leaves every output as it was. Where the
    // hook writes through a reference to a value-typed group of variables, the
    // returned value stands for that argument after the call.

    method SetDefaultModelingValues<ConstructionCache>(cc: ConstructionCache, mv: ModelingVars)
      returns (mvOut: ModelingVars)
      ensures mvOut == mv
    {
      mvOut := mv;
    }

    method SetDefaultParameterValues<ParameterVars>(mv: ModelingVars, pv: ParameterVars)
      returns (pvOut: ParameterVars)
      ensures pvOut == pv
    {
      pvOut := pv;
    }

    method SetDefaultTimeValues<TimeVars>(mv: ModelingVars, tv: TimeVars)
      returns (tvOut: TimeVars)
      ensures tvOut == tv
    {
      tvOut := tv;
    }

    method SetDefaultConfigurationValues(mv: ModelingVars, q: array<real>)
      modifies q
      ensures q[..] == old(q[..])
    {
    }

    method SetDefaultMotionValues(mv: ModelingVars, u: array<real>)
      modifies u
      ensures u[..] == old(u[..])
    {
    }

    method SetDefaultDynamicsValues<DynamicsVars>(mv: ModelingVars, dv: DynamicsVars)
      returns (dvOut: DynamicsVars)
      ensures dvOut == dv
    {
      dvOut := dv;
    }

    method SetDefaultReactionValues<ReactionVars>(mv: ModelingVars, rv: ReactionVars)
      returns (rvOut: ReactionVars)
      ensures rvOut == rv
    {
      rvOut := rv;
    }

    /** The base mobilizer cannot take up a requested configuration: q is left as it was. */
    method SetMobilizerConfiguration(mv: ModelingVars, X_JbJ: Transform, q: array<real>)
      modifies q
      ensures q[..] == old(q[..])
    {
    }

    /** The base mobilizer cannot take up a requested velocity: u is left as it was. */
    method SetMobilizerVelocity(mv: ModelingVars, V_JbJ: SpatialVec, u: array<real>)
      modifies u
      ensures u[..] == old(u[..])
    {
    }

    function Type(): (name: string)
      ensures name == "unknown"
    {
      "unknown"
    }

    // -------------------------------------------------------------------------
    // Operations only concrete joint types provide. The base class throws
    // VirtualBaseMethod before touching anything: these methods have no
    // modifies clause, so none of their output arguments can change.

    method CalcZ(cc: ConfigurationCache, dc: DynamicsCache, spatialForce: SpatialVec, rc: ReactionCache)
      returns (r: Outcome)
      ensures r == Fail(VirtualBaseMethod)
    {
      r := Fail(VirtualBaseMethod);
    }

    method CalcYOutward(cc: ConfigurationCache, dc: DynamicsCache)
      returns (r: Outcome)
      ensures r == Fail(VirtualBaseMethod)
    {
      r := Fail(VirtualBaseMethod);
    }

    method CalcAccel(mv: ModelingVars, q: array<real>, cc: ConfigurationCache, u: array<real>,
                     dc: DynamicsCache, rc: ReactionCache, udot: array<real>, qdotdot: array<real>)
      returns (r: Outcome)
      ensures r == Fail(VirtualBaseMethod)
    {
      r := Fail(VirtualBaseMethod);
    }

    method CalcInternalGradientFromSpatial(cc: ConfigurationCache, zTmp: array<SpatialVec>,
                                           X: array<SpatialVec>, JX: array<real>)
      returns (r: Outcome)
      ensures r == Fail(VirtualBaseMethod)
    {
      r := Fail(VirtualBaseMethod);
    }

    method CalcEquivalentJointForces(cc: ConfigurationCache, dc: DynamicsCache,
                                     bodyForces: array<SpatialVec>, allZ: array<SpatialVec>,
                                     allGepsilon: array<SpatialVec>, jointForces: array<real>)
      returns (r: Outcome)
      ensures r == Fail(VirtualBaseMethod)
    {
      r := Fail(VirtualBaseMethod);
    }

    method CalcUDotPass1Inward(cc: ConfigurationCache, dc: DynamicsCache, jointForces: array<real>,
                               bodyForces: array<SpatialVec>, allZ: array<SpatialVec>,
                               allGepsilon: array<SpatialVec>, allEpsilon: array<real>)
      returns (r: Outcome)
      ensures r == Fail(VirtualBaseMethod)
    {
      r := Fail(VirtualBaseMethod);
    }

    method CalcUDotPass2Outward(cc: ConfigurationCache, dc: DynamicsCache, epsilonTmp: array<real>,
                                allA_GB: array<SpatialVec>, allUDot: array<real>)
      returns (r: Outcome)
      ensures r == Fail(VirtualBaseMethod)
    {
      r := Fail(VirtualBaseMethod);
    }

    method CalcQDot(mv: ModelingVars, q: array<real>, cc: ConfigurationCache, u: array<real>,
                    qdot: array<real>)
      returns (r: Outcome)
      ensures r == Fail(VirtualBaseMethod)
    {
      r := Fail(VirtualBaseMethod);
    }

    method CalcQDotDot(mv: ModelingVars, q: array<real>, cc: ConfigurationCache, u: array<real>,
                       udot: array<real>, qdotdot: array<real>)
      returns (r: Outcome)
      ensures r == Fail(VirtualBaseMethod)
    {
      r := Fail(VirtualBaseMethod);
    }

    method SetVelFromSVel(cc: ConfigurationCache, mc: MotionCache, sVel: SpatialVec, u: array<real>)
      returns (r: Outcome)
      ensures r == Fail(VirtualBaseMethod)
    {
      r := Fail(VirtualBaseMethod);
    }

    method SetQ(mv: ModelingVars, qIn: array<real>, q: array<real>)
      returns (r: Outcome)
      ensures r == Fail(VirtualBaseMethod)
    {
      r := Fail(VirtualBaseMethod);
    }

    method SetU(mv: ModelingVars, uIn: array<real>, u: array<real>)
      returns (r: Outcome)
      ensures r == Fail(VirtualBaseMethod)
    {
      r := Fail(VirtualBaseMethod);
    }

    method GetInternalForce(rc: ReactionCache, tau: array<real>)
      returns (r: Outcome)
      ensures r == Fail(VirtualBaseMethod)
    {
      r := Fail(VirtualBaseMethod);
    }

    method GetHRow(cc: ConfigurationCache, i: int)
      returns (r: Result<SpatialRow>)
      ensures r == Failure(VirtualBaseMethod)
    {
      r := Failure(VirtualBaseMethod);
    }
  }
}
