/**
 * The stage-scoped storage a node reads and writes through. The State that
 * owns these arrays, and its stage bookkeeping, are not part of this model:
 * each cache is reduced to its per-body arrays, one entry per node, indexed by
 * the node's nodeNum, all of one common length nBodies.
 */
module StateCache {
  import opened Transforms
  import opened SpatialTypes

  /** The modeling-stage choices a node consults. */
  datatype ModelingVars = ModelingVars(useEulerAngles: bool, prescribed: seq<bool>)

  function ZeroMat33(): Mat33 { Mat33(Zero(), Zero(), Zero()) }
  function ZeroSpatialVec(): SpatialVec { SpatialVec(Zero(), Zero()) }
  function ZeroSpatialMat(): SpatialMat { SpatialMat(ZeroMat33(), ZeroMat33(), ZeroMat33(), ZeroMat33()) }
  function ZeroInertia(): InertiaMat { InertiaMat(0.0, 0.0, 0.0, 0.0, 0.0, 0.0) }

  // ---------------------------------------------------------------------------
  // Configuration stage

  datatype ConfigurationEntries = ConfigurationEntries(
    bodyJointInParentJointFrame: seq<Transform>,
    bodyConfigInParent: seq<Transform>,
    bodyConfigInGround: seq<Transform>,
    bodyToParentShift: seq<PhiMatrix>,
    bodySpatialInertia: seq<SpatialMat>,
    bodyCOMInGround: seq<Vec3>,
    bodyCOMStationInGround: seq<Vec3>,
    bodyInertiaInGround: seq<InertiaMat>)

  class ConfigurationCache {
    const nBodies: nat
    const bodyJointInParentJointFrame: array<Transform>
    const bodyConfigInParent: array<Transform>
    const bodyConfigInGround: array<Transform>
    const bodyToParentShift: array<PhiMatrix>
    const bodySpatialInertia: array<SpatialMat>
    const bodyCOMInGround: array<Vec3>
    const bodyCOMStationInGround: array<Vec3>
    const bodyInertiaInGround: array<InertiaMat>

    /** Every entry is sized for nBodies nodes, and no two entries share storage. */
    ghost predicate Valid()
    {
      && bodyJointInParentJointFrame.Length == nBodies
      && bodyConfigInParent.Length == nBodies
      && bodyConfigInGround.Length == nBodies
      && bodyToParentShift.Length == nBodies
      && bodySpatialInertia.Length == nBodies
      && bodyCOMInGround.Length == nBodies
      && bodyCOMStationInGround.Length == nBodies
      && bodyInertiaInGround.Length == nBodies
      && bodyJointInParentJointFrame != bodyConfigInParent
      && bodyJointInParentJointFrame != bodyConfigInGround
      && bodyConfigInParent != bodyConfigInGround
      && bodyCOMInGround != bodyCOMStationInGround
    }

    ghost function Entries(): ConfigurationEntries
      reads bodyJointInParentJointFrame, bodyConfigInParent, bodyConfigInGround, bodyToParentShift,
            bodySpatialInertia, bodyCOMInGround, bodyCOMStationInGround, bodyInertiaInGround
    {
      ConfigurationEntries(
        bodyJointInParentJointFrame[..], bodyConfigInParent[..], bodyConfigInGround[..],
        bodyToParentShift[..], bodySpatialInertia[..], bodyCOMInGround[..],
        bodyCOMStationInGround[..], bodyInertiaInGround[..])
    }

    constructor (n: nat)
      ensures Valid() && nBodies == n
    {
      nBodies := n;
      bodyJointInParentJointFrame := new Transform[n](_ => Identity());
      bodyConfigInParent := new Transform[n](_ => Identity());
      bodyConfigInGround := new Transform[n](_ => Identity());
      bodyToParentShift := new PhiMatrix[n](_ => PhiMatrix(Zero()));
      bodySpatialInertia := new SpatialMat[n](_ => ZeroSpatialMat());
      bodyCOMInGround := new Vec3[n](_ => Zero());
      bodyCOMStationInGround := new Vec3[n](_ => Zero());
      bodyInertiaInGround := new InertiaMat[n](_ => ZeroInertia());
    }
  }

  // ---------------------------------------------------------------------------
  // Motion stage

  datatype MotionEntries = MotionEntries(
    mobilizerRelativeVelocity: seq<SpatialVec>,
    bodyVelocityInGround: seq<SpatialVec>,
    bodyVelocityInParent: seq<SpatialVec>)

  class MotionCache {
    const nBodies: nat
    const mobilizerRelativeVelocity: array<SpatialVec>
    const bodyVelocityInGround: array<SpatialVec>
    const bodyVelocityInParent: array<SpatialVec>

    ghost predicate Valid()
    {
      && mobilizerRelativeVelocity.Length == nBodies
      && bodyVelocityInGround.Length == nBodies
      && bodyVelocityInParent.Length == nBodies
      && mobilizerRelativeVelocity != bodyVelocityInGround
      && mobilizerRelativeVelocity != bodyVelocityInParent
      && bodyVelocityInGround != bodyVelocityInParent
    }

    ghost function Entries(): MotionEntries
      reads mobilizerRelativeVelocity, bodyVelocityInGround, bodyVelocityInParent
    {
      MotionEntries(mobilizerRelativeVelocity[..], bodyVelocityInGround[..], bodyVelocityInParent[..])
    }

    constructor (n: nat)
      ensures Valid() && nBodies == n
    {
      nBodies := n;
      mobilizerRelativeVelocity := new SpatialVec[n](_ => ZeroSpatialVec());
      bodyVelocityInGround := new SpatialVec[n](_ => ZeroSpatialVec());
      bodyVelocityInParent := new SpatialVec[n](_ => ZeroSpatialVec());
    }
  }

  // ---------------------------------------------------------------------------
  // Dynamics stage

  datatype DynamicsEntries = DynamicsEntries(
    appliedRigidBodyForces: seq<SpatialVec>,
    articulatedBodyInertia: seq<SpatialMat>,
    coriolisAcceleration: seq<SpatialVec>,
    gyroscopicForces: seq<SpatialVec>,
    centrifugalForces: seq<SpatialVec>,
    psi: seq<SpatialMat>,
    tauBar: seq<SpatialMat>,
    Y: seq<SpatialMat>)

  class DynamicsCache {
    const nBodies: nat
    const appliedRigidBodyForces: array<SpatialVec>
    const articulatedBodyInertia: array<SpatialMat>
    const coriolisAcceleration: array<SpatialVec>
    const gyroscopicForces: array<SpatialVec>
    const centrifugalForces: array<SpatialVec>
    const psi: array<SpatialMat>
    const tauBar: array<SpatialMat>
    const Y: array<SpatialMat>

    ghost predicate Valid()
    {
      && appliedRigidBodyForces.Length == nBodies
      && articulatedBodyInertia.Length == nBodies
      && coriolisAcceleration.Length == nBodies
      && gyroscopicForces.Length == nBodies
      && centrifugalForces.Length == nBodies
      && psi.Length == nBodies
      && tauBar.Length == nBodies
      && Y.Length == nBodies
      && appliedRigidBodyForces != coriolisAcceleration
      && appliedRigidBodyForces != gyroscopicForces
      && appliedRigidBodyForces != centrifugalForces
      && coriolisAcceleration != gyroscopicForces
      && coriolisAcceleration != centrifugalForces
      && gyroscopicForces != centrifugalForces
      && articulatedBodyInertia != psi
      && articulatedBodyInertia != tauBar
      && articulatedBodyInertia != Y
      && psi != tauBar
      && psi != Y
      && tauBar != Y
    }

    ghost function Entries(): DynamicsEntries
      reads appliedRigidBodyForces, articulatedBodyInertia, coriolisAcceleration, gyroscopicForces,
            centrifugalForces, psi, tauBar, Y
    {
      DynamicsEntries(
        appliedRigidBodyForces[..], articulatedBodyInertia[..], coriolisAcceleration[..],
        gyroscopicForces[..], centrifugalForces[..], psi[..], tauBar[..], Y[..])
    }

    constructor (n: nat)
      ensures Valid() && nBodies == n
    {
      nBodies := n;
      appliedRigidBodyForces := new SpatialVec[n](_ => ZeroSpatialVec());
      articulatedBodyInertia := new SpatialMat[n](_ => ZeroSpatialMat());
      coriolisAcceleration := new SpatialVec[n](_ => ZeroSpatialVec());
      gyroscopicForces := new SpatialVec[n](_ => ZeroSpatialVec());
      centrifugalForces := new SpatialVec[n](_ => ZeroSpatialVec());
      psi := new SpatialMat[n](_ => ZeroSpatialMat());
      tauBar := new SpatialMat[n](_ => ZeroSpatialMat());
      Y := new SpatialMat[n](_ => ZeroSpatialMat());
    }
  }

  // ---------------------------------------------------------------------------
  // Reaction stage

  datatype ReactionEntries = ReactionEntries(
    bodyAccelerationInGround: seq<SpatialVec>,
    z: seq<SpatialVec>,
    Gepsilon: seq<SpatialVec>)

  class ReactionCache {
    const nBodies: nat
    const bodyAccelerationInGround: array<SpatialVec>
    const z: array<SpatialVec>
    const Gepsilon: array<SpatialVec>

    ghost predicate Valid()
    {
      && bodyAccelerationInGround.Length == nBodies
      && z.Length == nBodies
      && Gepsilon.Length == nBodies
      && bodyAccelerationInGround != z
      && bodyAccelerationInGround != Gepsilon
      && z != Gepsilon
    }

    ghost function Entries(): ReactionEntries
      reads bodyAccelerationInGround, z, Gepsilon
    {
      ReactionEntries(bodyAccelerationInGround[..], z[..], Gepsilon[..])
    }

    constructor (n: nat)
      ensures Valid() && nBodies == n
    {
      nBodies := n;
      bodyAccelerationInGround := new SpatialVec[n](_ => ZeroSpatialVec());
      z := new SpatialVec[n](_ => ZeroSpatialVec());
      Gepsilon := new SpatialVec[n](_ => ZeroSpatialVec());
    }
  }
}
