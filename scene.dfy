/**
 * The scene records and the object registry they are collected into.
 *
 * Fluid blocks and rigid bodies arrive as configuration records whose
 * configured keys never change and which are annotated in place during setup
 * (`particleNum`, and `voxelizedPoints` for rigid bodies). The registry is a
 * dictionary from object id to the record itself (not a copy), filled first
 * with every fluid block and then with every rigid body, in list order, by
 * plain assignment: a repeated id silently replaces the earlier record.
 * The functions below give the dictionary and the running totals that
 * setup produces, as functions of the configured lists.
 */
module Scene {
  import opened Lattice

  type ObjectId = int

  /** A point of a rigid body's voxelized point cloud. */
  type Point = seq<real>

  datatype Option<T> = None | Some(value: T)

  /** The configured geometry of a rigid body: mesh file and its placement. */
  datatype RigidGeometry = RigidGeometry(
    geometryFile: string,
    scale: real,
    translation: seq<real>,
    rotationAngle: real)

  /** A fluid block's configuration record: an axis-aligned box [start, end). */
  class FluidBlockConfig {
    const objectId: ObjectId
    const start: seq<real>
    const end: seq<real>
    var particleNum: Option<nat>

    constructor (objectId: ObjectId, start: seq<real>, end: seq<real>)
      ensures this.objectId == objectId && this.start == start && this.end == end
      ensures particleNum == None
    {
      this.objectId, this.start, this.end := objectId, start, end;
      particleNum := None;
    }

    /** Stores the block's particle count on the record. */
    method Annotate(count: nat)
      modifies this
      ensures particleNum == Some(count)
    {
      particleNum := Some(count);
    }
  }

  /** A rigid body's configuration record. */
  class RigidBodyConfig {
    const objectId: ObjectId
    const geometry: RigidGeometry
    var particleNum: Option<nat>
    var voxelizedPoints: Option<seq<Point>>

    constructor (objectId: ObjectId, geometry: RigidGeometry)
      ensures this.objectId == objectId && this.geometry == geometry
      ensures particleNum == None && voxelizedPoints == None
    {
      this.objectId, this.geometry := objectId, geometry;
      particleNum, voxelizedPoints := None, None;
    }

    /** Stores the voxelized points on the record, with their number as its particle count. */
    method Annotate(points: seq<Point>)
      modifies this
      ensures particleNum == Some(|points|) && voxelizedPoints == Some(points)
    {
      particleNum := Some(|points|);
      voxelizedPoints := Some(points);
    }
  }

  /** An entry of the registry: the record of a fluid block or of a rigid body. */
  datatype SceneObject = Fluid(fluid: FluidBlockConfig) | Rigid(rigid: RigidBodyConfig) {
    /** The id of the record. */
    function Id(): ObjectId
    {
      match this
      case Fluid(f) => f.objectId
      case Rigid(b) => b.objectId
    }
  }

  /** Every fluid block has coordinates for each of the first dim axes. */
  predicate Shaped(fs: seq<FluidBlockConfig>, dim: nat)
  {
    forall f :: f in fs ==> dim <= |f.start| && dim <= |f.end|
  }

  /** The particle count of one fluid block at pitch d. */
  function FluidCount(f: FluidBlockConfig, d: real, dim: nat): nat
    requires d != 0.0 && dim <= |f.start| && dim <= |f.end|
  {
    LatticeCount(f.start, f.end, d, dim)
  }

  function FluidIds(fs: seq<FluidBlockConfig>): set<ObjectId>
  {
    set f | f in fs :: f.objectId
  }

  function RigidIds(rs: seq<RigidBodyConfig>): set<ObjectId>
  {
    set b | b in rs :: b.objectId
  }

  /** The dictionary m after assigning each fluid block of fs under its id, in order. */
  function InsertFluids(m: map<ObjectId, SceneObject>, fs: seq<FluidBlockConfig>): map<ObjectId, SceneObject>
  {
    if fs == [] then m
    else InsertFluids(m, fs[..|fs| - 1])[fs[|fs| - 1].objectId := Fluid(fs[|fs| - 1])]
  }

  /** The dictionary m after assigning each rigid body of rs under its id, in order. */
  function InsertRigids(m: map<ObjectId, SceneObject>, rs: seq<RigidBodyConfig>): map<ObjectId, SceneObject>
  {
    if rs == [] then m
    else InsertRigids(m, rs[..|rs| - 1])[rs[|rs| - 1].objectId := Rigid(rs[|rs| - 1])]
  }

  /**
   * The registry built from an empty dictionary: fluid blocks first, then
   * rigid bodies. It holds exactly the ids of the fluid blocks and of the
   * rigid bodies.
   */
  function Collection(fs: seq<FluidBlockConfig>, rs: seq<RigidBodyConfig>): (r: map<ObjectId, SceneObject>)
    ensures r.Keys == FluidIds(fs) + RigidIds(rs)
  {
    InsertFluidsKeys(map[], fs);
    InsertRigidsKeys(InsertFluids(map[], fs), rs);
    InsertRigids(InsertFluids(map[], fs), rs)
  }

  /** The sum of the particle counts of the fluid blocks, one term per block, in list order. */
  function FluidTotal(fs: seq<FluidBlockConfig>, d: real, dim: nat): nat
    requires d != 0.0 && Shaped(fs, dim)
  {
    if fs == [] then 0
    else FluidTotal(fs[..|fs| - 1], d, dim) + FluidCount(fs[|fs| - 1], d, dim)
  }

  /**
   * The sum of the sizes of the rigid bodies' point clouds, one term per body,
   * where load gives the point cloud of a geometry voxelized at the pitch.
   */
  function RigidTotal(rs: seq<RigidBodyConfig>, load: (RigidGeometry, real) -> seq<Point>, pitch: real): nat
  {
    if rs == [] then 0
    else RigidTotal(rs[..|rs| - 1], load, pitch) + |load(rs[|rs| - 1].geometry, pitch)|
  }

  /** A fluid block carries its particle count at pitch d over dim axes. */
  ghost predicate FluidAnnotated(f: FluidBlockConfig, d: real, dim: nat)
    reads f
    ensures FluidAnnotated(f, d, dim) ==>
      && d != 0.0 && dim <= |f.start| && dim <= |f.end|
      && f.particleNum.Some?
      && (f.particleNum.value > 0 <==> forall i :: 0 <= i < dim ==> |Arange(f.start[i], f.end[i], d)| > 0)
  {
    d != 0.0 && dim <= |f.start| && dim <= |f.end| && f.particleNum == Some(FluidCount(f, d, dim))
  }

  /** Extending the fluid list by its next block: one more assignment and term. */
  lemma FluidPrefixStep(m: map<ObjectId, SceneObject>, fs: seq<FluidBlockConfig>, i: nat, d: real, dim: nat)
    requires i < |fs| && d != 0.0 && Shaped(fs, dim)
    ensures Shaped(fs[..i], dim) && Shaped(fs[..i + 1], dim)
    ensures InsertFluids(m, fs[..i + 1]) == InsertFluids(m, fs[..i])[fs[i].objectId := Fluid(fs[i])]
    ensures FluidTotal(fs[..i + 1], d, dim) == FluidTotal(fs[..i], d, dim) + FluidCount(fs[i], d, dim)
  {
    assert fs[..i + 1][..i] == fs[..i];
    assert fs[i] in fs;
  }

  /** A rigid body carries the point cloud of its geometry at the pitch, and that cloud's size. */
  ghost predicate RigidAnnotated(b: RigidBodyConfig, load: (RigidGeometry, real) -> seq<Point>, pitch: real)
    reads b
  {
    && b.voxelizedPoints == Some(load(b.geometry, pitch))
    && b.particleNum == Some(|load(b.geometry, pitch)|)
  }

  /** An annotated rigid body's particle count is the size of the point cloud it stores. */
  lemma RigidAnnotatedCount(b: RigidBodyConfig, load: (RigidGeometry, real) -> seq<Point>, pitch: real)
    requires RigidAnnotated(b, load, pitch)
    ensures b.particleNum.Some? && b.voxelizedPoints.Some?
    ensures b.particleNum.value == |b.voxelizedPoints.value|
  {
  }

  /** Extending the rigid list by its next body: one more assignment, id and term. */
  lemma RigidPrefixStep(m: map<ObjectId, SceneObject>, rs: seq<RigidBodyConfig>, i: nat,
                        load: (RigidGeometry, real) -> seq<Point>, pitch: real)
    requires i < |rs|
    ensures InsertRigids(m, rs[..i + 1]) == InsertRigids(m, rs[..i])[rs[i].objectId := Rigid(rs[i])]
    ensures RigidIds(rs[..i + 1]) == RigidIds(rs[..i]) + {rs[i].objectId}
    ensures RigidTotal(rs[..i + 1], load, pitch) == RigidTotal(rs[..i], load, pitch) + |load(rs[i].geometry, pitch)|
  {
    assert rs[..i + 1][..i] == rs[..i];
    assert rs[..i + 1] == rs[..i] + [rs[i]];
  }

  // ---------------------------------------------------------------------
  // Keys of the registry

  lemma {:induction false} InsertFluidsKeys(m: map<ObjectId, SceneObject>, fs: seq<FluidBlockConfig>)
    ensures InsertFluids(m, fs).Keys == m.Keys + FluidIds(fs)
  {
    if fs != [] {
      var init := fs[..|fs| - 1];
      InsertFluidsKeys(m, init);
      assert fs == init + [fs[|fs| - 1]];
      assert FluidIds(fs) == FluidIds(init) + {fs[|fs| - 1].objectId};
    }
  }

  lemma {:induction false} InsertRigidsKeys(m: map<ObjectId, SceneObject>, rs: seq<RigidBodyConfig>)
    ensures InsertRigids(m, rs).Keys == m.Keys + RigidIds(rs)
  {
    if rs != [] {
      var init := rs[..|rs| - 1];
      InsertRigidsKeys(m, init);
      assert rs == init + [rs[|rs| - 1]];
      assert RigidIds(rs) == RigidIds(init) + {rs[|rs| - 1].objectId};
    }
  }

  // ---------------------------------------------------------------------
  // Which record an id ends up with: the last assignment wins

  lemma {:induction false} InsertFluidsLastWins(m: map<ObjectId, SceneObject>, fs: seq<FluidBlockConfig>, k: nat)
    requires k < |fs|
    requires forall j :: k < j < |fs| ==> fs[j].objectId != fs[k].objectId
    ensures fs[k].objectId in InsertFluids(m, fs)
    ensures InsertFluids(m, fs)[fs[k].objectId] == Fluid(fs[k])
  {
    if k < |fs| - 1 {
      var init := fs[..|fs| - 1];
      InsertFluidsLastWins(m, init, k);
    }
  }

  lemma {:induction false} InsertRigidsLastWins(m: map<ObjectId, SceneObject>, rs: seq<RigidBodyConfig>, k: nat)
    requires k < |rs|
    requires forall j :: k < j < |rs| ==> rs[j].objectId != rs[k].objectId
    ensures rs[k].objectId in InsertRigids(m, rs)
    ensures InsertRigids(m, rs)[rs[k].objectId] == Rigid(rs[k])
  {
    if k < |rs| - 1 {
      var init := rs[..|rs| - 1];
      InsertRigidsLastWins(m, init, k);
    }
  }

  /** Assigning rigid bodies leaves the entries of the other ids as they were. */
  lemma {:induction false} InsertRigidsKeepsOthers(m: map<ObjectId, SceneObject>, rs: seq<RigidBodyConfig>, id: ObjectId)
    requires id in m && id !in RigidIds(rs)
    ensures id in InsertRigids(m, rs) && InsertRigids(m, rs)[id] == m[id]
  {
    if rs != [] {
      var init := rs[..|rs| - 1];
      assert rs[|rs| - 1] in rs;
      assert RigidIds(init) <= RigidIds(rs);
      InsertRigidsKeepsOthers(m, init, id);
    }
  }

  /**
   * A rigid body is stored under its id unless a later rigid body has the
   * same id; in particular it replaces any fluid block with that id.
   */
  lemma RigidRecordStored(fs: seq<FluidBlockConfig>, rs: seq<RigidBodyConfig>, k: nat)
    requires k < |rs|
    requires forall j :: k < j < |rs| ==> rs[j].objectId != rs[k].objectId
    ensures rs[k].objectId in Collection(fs, rs)
    ensures Collection(fs, rs)[rs[k].objectId] == Rigid(rs[k])
  {
    InsertRigidsLastWins(InsertFluids(map[], fs), rs, k);
  }

  /**
   * A fluid block is stored under its id unless a later fluid block or any
   * rigid body has the same id.
   */
  lemma FluidRecordStored(fs: seq<FluidBlockConfig>, rs: seq<RigidBodyConfig>, k: nat)
    requires k < |fs|
    requires forall j :: k < j < |fs| ==> fs[j].objectId != fs[k].objectId
    requires fs[k].objectId !in RigidIds(rs)
    ensures fs[k].objectId in Collection(fs, rs)
    ensures Collection(fs, rs)[fs[k].objectId] == Fluid(fs[k])
  {
    InsertFluidsLastWins(map[], fs, k);
    InsertRigidsKeepsOthers(InsertFluids(map[], fs), rs, fs[k].objectId);
  }

  // ---------------------------------------------------------------------
  // What the registry's entries are

  /** Every entry of the registry is one of the configured records. */
  predicate FromConfigs(m: map<ObjectId, SceneObject>, fs: seq<FluidBlockConfig>, rs: seq<RigidBodyConfig>)
  {
    forall id :: id in m ==>
      && m[id].Id() == id
      && (m[id].Fluid? ==> m[id].fluid in fs)
      && (m[id].Rigid? ==> m[id].rigid in rs)
  }

  lemma {:induction false} InsertFluidsFromConfigs(fs: seq<FluidBlockConfig>)
    ensures FromConfigs(InsertFluids(map[], fs), fs, [])
  {
    if fs != [] {
      var init := fs[..|fs| - 1];
      InsertFluidsFromConfigs(init);
      assert forall f :: f in init ==> f in fs;
    }
  }

  lemma {:induction false} InsertRigidsFromConfigs(m: map<ObjectId, SceneObject>, fs: seq<FluidBlockConfig>, rs: seq<RigidBodyConfig>)
    requires FromConfigs(m, fs, [])
    ensures FromConfigs(InsertRigids(m, rs), fs, rs)
  {
    if rs != [] {
      var init := rs[..|rs| - 1];
      InsertRigidsFromConfigs(m, fs, init);
      assert forall b :: b in init ==> b in rs;
    }
  }

  /** Each registry entry is a configured record, stored under that record's own id. */
  lemma CollectionFromConfigs(fs: seq<FluidBlockConfig>, rs: seq<RigidBodyConfig>)
    ensures FromConfigs(Collection(fs, rs), fs, rs)
  {
    InsertFluidsFromConfigs(fs);
    InsertRigidsFromConfigs(InsertFluids(map[], fs), fs, rs);
  }

  lemma {:induction false} InsertRigidsKinds(m: map<ObjectId, SceneObject>, rs: seq<RigidBodyConfig>, id: ObjectId)
    requires forall j :: j in m ==> m[j].Fluid?
    ensures id in RigidIds(rs) <==> id in InsertRigids(m, rs) && InsertRigids(m, rs)[id].Rigid?
  {
    if rs != [] {
      var init := rs[..|rs| - 1];
      InsertRigidsKinds(m, init, id);
      assert rs == init + [rs[|rs| - 1]];
      assert RigidIds(rs) == RigidIds(init) + {rs[|rs| - 1].objectId};
    }
  }

  lemma {:induction false} InsertFluidsOnlyFluid(fs: seq<FluidBlockConfig>)
    ensures forall j :: j in InsertFluids(map[], fs) ==> InsertFluids(map[], fs)[j].Fluid?
  {
    if fs != [] {
      InsertFluidsOnlyFluid(fs[..|fs| - 1]);
    }
  }

  /**
   * The rigid ids are exactly the ids whose registry entry is a rigid body:
   * an id is tagged rigid if and only if a rigid body has it, and no fluid
   * block's id becomes rigid unless a rigid body shares it.
   */
  lemma RigidIdsTagRigidEntries(fs: seq<FluidBlockConfig>, rs: seq<RigidBodyConfig>, id: ObjectId)
    ensures id in RigidIds(rs) <==> id in Collection(fs, rs) && Collection(fs, rs)[id].Rigid?
  {
    InsertFluidsOnlyFluid(fs);
    InsertRigidsKinds(InsertFluids(map[], fs), rs, id);
  }

  // ---------------------------------------------------------------------
  // Totals

  /** The fluid total is additive over the list: every block counts once, whatever its id. */
  lemma {:induction false} FluidTotalAppend(fs: seq<FluidBlockConfig>, gs: seq<FluidBlockConfig>, d: real, dim: nat)
    requires d != 0.0 && Shaped(fs, dim) && Shaped(gs, dim)
    ensures Shaped(fs + gs, dim)
    ensures FluidTotal(fs + gs, d, dim) == FluidTotal(fs, d, dim) + FluidTotal(gs, d, dim)
  {
    assert Shaped(fs + gs, dim);
    if gs == [] {
      assert fs + gs == fs;
    } else {
      var init := gs[..|gs| - 1];
      assert Shaped(init, dim);
      FluidTotalAppend(fs, init, d, dim);
      assert (fs + gs)[..|fs + gs| - 1] == fs + init;
    }
  }

  /** The rigid total is additive over the list: every body counts once, whatever its id. */
  lemma {:induction false} RigidTotalAppend(rs: seq<RigidBodyConfig>, qs: seq<RigidBodyConfig>, load: (RigidGeometry, real) -> seq<Point>, pitch: real)
    ensures RigidTotal(rs + qs, load, pitch) == RigidTotal(rs, load, pitch) + RigidTotal(qs, load, pitch)
  {
    if qs == [] {
      assert rs + qs == rs;
    } else {
      var init := qs[..|qs| - 1];
      RigidTotalAppend(rs, init, load, pitch);
      assert (rs + qs)[..|rs + qs| - 1] == rs + init;
    }
  }

  /**
   * Two fluid blocks with the same id: the registry keeps only the second,
   * yet the fluid total counts both.
   */
  lemma DuplicateIdStillCounted(f: FluidBlockConfig, g: FluidBlockConfig, d: real, dim: nat)
    requires f.objectId == g.objectId
    requires d != 0.0 && Shaped([f, g], dim)
    ensures Collection([f, g], []) == map[g.objectId := Fluid(g)]
    ensures FluidTotal([f, g], d, dim) == FluidCount(f, d, dim) + FluidCount(g, d, dim)
  {
    assert [f, g][..1] == [f];
    assert [f][..0] == [];
    assert InsertFluids(map[], [f]) == map[f.objectId := Fluid(f)];
    assert FluidTotal([f], d, dim) == FluidCount(f, d, dim);
  }
}
