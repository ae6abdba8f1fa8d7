/**
 * The particle system's setup: the derived domain parameters, the particle
 * count of every fluid block and rigid body, the object registry and the
 * running totals.
 */
module Particles {
  import opened Lattice
  import opened Scene

  /**
   * The fewest cells of side g that cover an extent x: ceil(x / g). The
   * cells fall short of x with one cell fewer, and a positive extent needs
   * at least one cell.
   */
  function CellsCovering(x: real, g: real): (n: int)
    requires g > 0.0
    ensures (n - 1) as real * g < x <= n as real * g
    ensures x > 0.0 ==> n >= 1
  {
    var q := x / g;
    assert q * g == x;
    var n := Ceil(q);
    assert (n - 1) as real * g < q * g <= n as real * g;
    n
  }

  /** The number of grid cells along each axis of a domain of the given extents. */
  function GridNum(domainSize: seq<real>, gridSize: real): (r: seq<int>)
    requires gridSize > 0.0
    ensures |r| == |domainSize|
    ensures forall i :: 0 <= i < |r| ==> (r[i] - 1) as real * gridSize < domainSize[i] <= r[i] as real * gridSize
    ensures forall i :: 0 <= i < |r| && domainSize[i] > 0.0 ==> r[i] >= 1
  {
    seq(|domainSize|, i requires 0 <= i < |domainSize| => CellsCovering(domainSize[i], gridSize))
  }

  class ParticleSystem {
    const domainStart: seq<real>
    const domainEnd: seq<real>
    const particleRadius: real

    const dim: nat
    const domainSize: seq<real>
    const particleDiameter: real
    const supportLength: real
    const gridSize: real
    const gridNum: seq<int>

    const fluidBlocksConfig: seq<FluidBlockConfig>
    const rigidBodiesConfig: seq<RigidBodyConfig>
    /** The mesh pipeline: the point cloud of a rigid body's geometry voxelized and filled at a pitch. */
    const loadRigidBody: (RigidGeometry, real) -> seq<Point>

    var objectCollection: map<ObjectId, SceneObject>
    var rigidObjectId: set<ObjectId>
    var totalFluidParticleNum: nat
    var totalRigidParticleNum: nat
    var totalParticleNum: nat

    /** Every registry entry is a configured record annotated with its particle count (and points). */
    ghost predicate RecordsAnnotated()
      reads this, fluidBlocksConfig, rigidBodiesConfig
    {
      && FromConfigs(objectCollection, fluidBlocksConfig, rigidBodiesConfig)
      && forall id :: id in objectCollection ==>
        match objectCollection[id]
        case Fluid(f) => FluidAnnotated(f, particleDiameter, dim)
        case Rigid(b) => RigidAnnotated(b, loadRigidBody, particleDiameter)
    }

    /**
     * Sets up the scene: derives the domain parameters, annotates and
     * registers every fluid block and then every rigid body, and sums the
     * particle counts.
     */
    constructor (domainStart: seq<real>, domainEnd: seq<real>, particleRadius: real,
                 fluidBlocksConfig: seq<FluidBlockConfig>, rigidBodiesConfig: seq<RigidBodyConfig>,
                 loadRigidBody: (RigidGeometry, real) -> seq<Point>)
      requires |domainStart| == |domainEnd|
      requires particleRadius > 0.0
      requires Shaped(fluidBlocksConfig, |domainStart|)
      modifies fluidBlocksConfig, rigidBodiesConfig
      // the configuration kept as given
      ensures this.domainStart == domainStart && this.domainEnd == domainEnd
      ensures this.particleRadius == particleRadius
      ensures this.fluidBlocksConfig == fluidBlocksConfig && this.rigidBodiesConfig == rigidBodiesConfig
      ensures this.loadRigidBody == loadRigidBody
      // the domain parameters
      ensures dim == |domainStart| && |domainSize| == dim
      ensures forall i :: 0 <= i < dim ==> domainSize[i] == domainEnd[i] - domainStart[i]
      ensures particleDiameter == 2.0 * particleRadius
      ensures supportLength == 4.0 * particleRadius && gridSize == supportLength
      ensures gridNum == GridNum(domainSize, gridSize)
      ensures forall i :: 0 <= i < dim && domainStart[i] < domainEnd[i] ==> gridNum[i] >= 1
      // the annotated records
      ensures forall f :: f in fluidBlocksConfig ==> FluidAnnotated(f, particleDiameter, dim)
      ensures forall b :: b in rigidBodiesConfig ==> RigidAnnotated(b, loadRigidBody, particleDiameter)
      // the registry
      ensures objectCollection == Collection(fluidBlocksConfig, rigidBodiesConfig)
      ensures objectCollection.Keys == FluidIds(fluidBlocksConfig) + RigidIds(rigidBodiesConfig)
      ensures rigidObjectId == RigidIds(rigidBodiesConfig)
      ensures forall id :: id in rigidObjectId <==> id in objectCollection && objectCollection[id].Rigid?
      ensures RecordsAnnotated()
      // the totals
      ensures totalFluidParticleNum == FluidTotal(fluidBlocksConfig, particleDiameter, dim)
      ensures totalRigidParticleNum == RigidTotal(rigidBodiesConfig, loadRigidBody, particleDiameter)
      ensures totalParticleNum == totalRigidParticleNum + totalFluidParticleNum
    {
      this.domainStart, this.domainEnd, this.particleRadius := domainStart, domainEnd, particleRadius;
      this.fluidBlocksConfig, this.rigidBodiesConfig := fluidBlocksConfig, rigidBodiesConfig;
      this.loadRigidBody := loadRigidBody;
      dim := |domainStart|;
      var size := seq(|domainEnd|, i requires 0 <= i < |domainEnd| => domainEnd[i] - domainStart[i]);
      domainSize := size;
      particleDiameter := 2.0 * particleRadius;
      supportLength := 4.0 * particleRadius;
      gridSize := 4.0 * particleRadius;
      gridNum := GridNum(size, 4.0 * particleRadius);
      objectCollection := map[];
      rigidObjectId := {};
      new;

      RegisterFluidBlocks();
      RegisterRigidBodies();
      totalParticleNum := totalRigidParticleNum + totalFluidParticleNum;

      CollectionFromConfigs(fluidBlocksConfig, rigidBodiesConfig);
      forall id | true
        ensures id in rigidObjectId <==> id in objectCollection && objectCollection[id].Rigid?
      {
        RigidIdsTagRigidEntries(fluidBlocksConfig, rigidBodiesConfig, id);
      }
    }

    /** Annotates every fluid block with its particle count, registers it under its id and sums the counts. */
    method RegisterFluidBlocks()
      requires particleDiameter != 0.0 && Shaped(fluidBlocksConfig, dim)
      modifies this`objectCollection, this`totalFluidParticleNum, fluidBlocksConfig
      ensures objectCollection == InsertFluids(old(objectCollection), fluidBlocksConfig)
      ensures totalFluidParticleNum == FluidTotal(fluidBlocksConfig, particleDiameter, dim)
      ensures forall f :: f in fluidBlocksConfig ==> FluidAnnotated(f, particleDiameter, dim)
    {
      totalFluidParticleNum := 0;
      for i := 0 to |fluidBlocksConfig|
        invariant objectCollection == InsertFluids(old(objectCollection), fluidBlocksConfig[..i])
        invariant totalFluidParticleNum == FluidTotal(fluidBlocksConfig[..i], particleDiameter, dim)
        invariant forall j :: 0 <= j < i ==> FluidAnnotated(fluidBlocksConfig[j], particleDiameter, dim)
      {
        var fluid := fluidBlocksConfig[i];
        var fluidParticleNum := ComputeFluidParticleNum(fluid.start, fluid.end);
        fluid.Annotate(fluidParticleNum);
        objectCollection := objectCollection[fluid.objectId := Fluid(fluid)];
        totalFluidParticleNum := totalFluidParticleNum + fluidParticleNum;
        FluidPrefixStep(old(objectCollection), fluidBlocksConfig, i, particleDiameter, dim);
      }
      assert fluidBlocksConfig[..|fluidBlocksConfig|] == fluidBlocksConfig;
    }

    /**
     * Voxelizes every rigid body, annotates it with its points and their
     * number, registers it under its id, tags the id as rigid and sums the counts.
     */
    method RegisterRigidBodies()
      modifies this`objectCollection, this`rigidObjectId, this`totalRigidParticleNum, rigidBodiesConfig
      ensures objectCollection == InsertRigids(old(objectCollection), rigidBodiesConfig)
      ensures rigidObjectId == old(rigidObjectId) + RigidIds(rigidBodiesConfig)
      ensures totalRigidParticleNum == RigidTotal(rigidBodiesConfig, loadRigidBody, particleDiameter)
      ensures forall b :: b in rigidBodiesConfig ==> RigidAnnotated(b, loadRigidBody, particleDiameter)
    {
      totalRigidParticleNum := 0;
      for i := 0 to |rigidBodiesConfig|
        invariant objectCollection == InsertRigids(old(objectCollection), rigidBodiesConfig[..i])
        invariant rigidObjectId == old(rigidObjectId) + RigidIds(rigidBodiesConfig[..i])
        invariant totalRigidParticleNum == RigidTotal(rigidBodiesConfig[..i], loadRigidBody, particleDiameter)
        invariant forall j :: 0 <= j < i ==> RigidAnnotated(rigidBodiesConfig[j], loadRigidBody, particleDiameter)
      {
        var rigidBody := rigidBodiesConfig[i];
        var voxelizedPoints := loadRigidBody(rigidBody.geometry, particleDiameter);
        var rigidParticleNum := |voxelizedPoints|;
        rigidBody.Annotate(voxelizedPoints);
        objectCollection := objectCollection[rigidBody.objectId := Rigid(rigidBody)];
        rigidObjectId := rigidObjectId + {rigidBody.objectId};
        totalRigidParticleNum := totalRigidParticleNum + rigidParticleNum;
        RigidPrefixStep(old(objectCollection), rigidBodiesConfig, i, loadRigidBody, particleDiameter);
      }
      assert rigidBodiesConfig[..|rigidBodiesConfig|] == rigidBodiesConfig;
    }

    /**
     * The number of lattice points of the box [start, end) at pitch
     * particleDiameter: the product, over the dim axes, of the arange lengths.
     */
    method ComputeFluidParticleNum(start: seq<real>, end: seq<real>) returns (particleNum: nat)
      requires particleDiameter != 0.0 && dim <= |start| && dim <= |end|
      ensures particleNum == LatticeCount(start, end, particleDiameter, dim)
    {
      particleNum := 1;
      for i := 0 to dim
        invariant particleNum == LatticeCount(start, end, particleDiameter, i)
      {
        particleNum := particleNum * |Arange(start[i], end[i], particleDiameter)|;
      }
    }
  }
}
