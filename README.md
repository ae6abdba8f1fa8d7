# Particle system setup, modelled in Dafny

This project models the setup of an SPH (smoothed-particle hydrodynamics)
particle system, `ParticleSystem.__init__` in `particle_system.py`. From the
scene configuration, setup does four things:

- It derives the domain parameters: dimension, particle diameter, support
  length, grid cell size and grid cell counts.
- It counts the lattice particles of every fluid block.
- It voxelizes every rigid body through a mesh library.
- It fills the object registry: a dictionary from object id to configuration
  record, a set of rigid ids, and the fluid, rigid and overall particle totals.

Modules:

- `Lattice` (`lattice.dfy`): numpy's `arange` on exact reals and the product
  of arange lengths over the axes. This is the particle count of a fluid block.
- `Scene` (`scene.dfy`): the configuration records. The configured keys are
  immutable; `particleNum` and `voxelizedPoints` are written during setup.
  The module also gives the registry and the totals as functions of the
  configured lists, with the lemmas about them. These lemmas cover the keys of
  the registry, which record wins on a repeated id, that the rigid-id set tags
  exactly the rigid entries, and that the totals count every configured object.
- `Particles` (`particle_system.dfy`): the class `ParticleSystem`. Its
  constructor is `__init__`, and its two registration loops run over the
  fluid blocks and the rigid bodies. `ComputeFluidParticleNum` is the
  per-axis multiplication loop. `GridNum` gives the grid cell counts.

Configuration records are objects because the source annotates its
configuration dictionaries in place. The registry stores the record objects
themselves, not copies, just as the Python dictionary holds the same
dictionaries as the configuration lists. The mesh pipeline (`load_rigid_body`)
is a constructor parameter, `loadRigidBody`. It is a function from a rigid
body's configured geometry and the pitch (the particle diameter) to the point
cloud.

Two behaviours of the code are kept as written:

- A repeated object id is not rejected. Each insertion is a plain dictionary
  assignment, so a later record silently replaces an earlier one, and rigid
  bodies (registered second) replace fluid blocks. The totals still count
  every configured object.
- The rigid ids are a set, not an ordered sequence.

## Model

| member | source | states |
|---|---|---|
| Lattice.Ceil | particle_system.py:26 | the result is the least integer not below x |
| Lattice.Arange | particle_system.py:72 | arange(start, stop, step) for a non-zero step: every element is start + k*step and lies before stop, and the next element of the progression would not |
| Lattice.ArangeLengthCounts | particle_system.py:72 | k < len(arange(start, stop, step)) exactly when start + k*step lies before stop (start included, stop excluded), for either sign of step |
| Lattice.ArangeEmpty | particle_system.py:72 | with a positive step, arange is empty exactly when stop <= start |
| Lattice.LatticeCount | particle_system.py:69-73 | the particle count of a block over its first n axes, the empty product 1 times each axis's arange length; it is positive exactly when every one of those axes has at least one coordinate |
| Lattice.LatticeCountZero | particle_system.py:69-73 | the product of the per-axis counts is 0 exactly when some axis among the first dim has end <= start |
| Lattice.UnitSquareHas2500Points | particle_system.py:69-73 | the unit square at pitch 0.02 (radius 0.01) has 50 * 50 = 2500 fluid particles |
| Lattice.StopIsExcluded | particle_system.py:72 | [0, 0.9) at pitch 0.3 gives 3 coordinates (0.9 excluded), [0, 1) gives 4, and [1.0, 1.3) at pitch 0.1 gives 3 |
| Particles.ParticleSystem.ComputeFluidParticleNum | particle_system.py:69-73 | the loop starts from 1 and returns the product over the dim axes of the arange lengths at pitch particleDiameter |
| Particles.CellsCovering | particle_system.py:26 | ceil(x / g) is the fewest cells of side g covering x: one cell fewer falls short, and a positive extent needs at least one cell |
| Particles.GridNum | particle_system.py:24-26 | one cell count per axis; each count's cells cover that axis's extent, one fewer do not, and a positive extent gives a count >= 1 |
| Particles.ParticleSystem.constructor | particle_system.py:8-66 | the domain vectors, radius, fluid and rigid configuration lists and mesh pipeline are kept as given. The domain parameters are set: dim = len(domainStart), diameter = 2r, support length = grid size = 4r, grid counts cover the domain and are >= 1 on positive extents. Every configured record is annotated. The registry equals the dictionary built by the two loops. Its keys are the union of fluid and rigid ids, and an id is in rigidObjectId exactly when its entry is rigid. Every entry is an annotated configured record under its own id. Each total is the per-object sum, and total = rigid + fluid |
| Particles.ParticleSystem.RegisterFluidBlocks | particle_system.py:37-46 | each fluid block is annotated with its lattice count and assigned under its id in list order, and the fluid total is the sum of all blocks' counts |
| Particles.ParticleSystem.RegisterRigidBodies | particle_system.py:51-64 | each rigid body is annotated with its voxelized points and their number and assigned under its id in list order. Its id is added to the rigid-id set, and the rigid total is the sum of all bodies' point counts |
| Scene.FluidBlockConfig.constructor | particle_system.py:12 | a fluid block record holds its id, start and end, and no particleNum yet |
| Scene.RigidBodyConfig.constructor | particle_system.py:11 | a rigid body record holds its id and geometry, and no particleNum or points yet |
| Scene.FluidBlockConfig.Annotate | particle_system.py:40 | the record's particleNum becomes the given count |
| Scene.RigidBodyConfig.Annotate | particle_system.py:55-56 | the record's particleNum becomes the number of the given points, and voxelizedPoints the points themselves |
| Scene.FluidPrefixStep | particle_system.py:39-42 | one more fluid block means one more dictionary assignment and one more term of the fluid total |
| Scene.RigidPrefixStep | particle_system.py:53-59 | one more rigid body means one more assignment, one more rigid id and one more term of the rigid total |
| Scene.InsertFluids | particle_system.py:38-41 | the dictionary after the fluid loop: each block assigned under its id, in list order, the later assignment replacing the earlier |
| Scene.InsertRigids | particle_system.py:52-57 | the dictionary after the rigid loop: each body assigned under its id, in list order, the later assignment replacing the earlier |
| Scene.Collection | particle_system.py:29-57 | the registry built from an empty dictionary, fluid blocks first and rigid bodies second; its keys are exactly the fluid ids together with the rigid ids |
| Scene.FluidTotal | particle_system.py:37-42 | the fluid total: one term per configured block, its lattice count, in list order |
| Scene.RigidTotal | particle_system.py:51-59 | the rigid total: one term per configured body, the size of its point cloud, in list order |
| Scene.FluidAnnotated | particle_system.py:39-40 | a block carries particleNum equal to its lattice count; so annotated, its particleNum is positive exactly when every axis has a coordinate |
| Scene.RigidAnnotated | particle_system.py:53-56 | a body carries the point cloud of its geometry at the pitch and particleNum equal to that cloud's size |
| Scene.RigidAnnotatedCount | particle_system.py:54-56 | an annotated body's particleNum equals the size of the point cloud stored beside it |
| Scene.InsertFluidsKeys | particle_system.py:38-41 | after the fluid loop, the dictionary's keys are the old keys plus every fluid id |
| Scene.InsertRigidsKeys | particle_system.py:52-57 | after the rigid loop, the dictionary's keys are the old keys plus every rigid id |
| Scene.InsertFluidsLastWins | particle_system.py:38-41 | a fluid block with no later block of the same id is the entry under its id |
| Scene.InsertRigidsLastWins | particle_system.py:52-57 | a rigid body with no later body of the same id is the entry under its id |
| Scene.InsertRigidsKeepsOthers | particle_system.py:52-57 | the rigid loop leaves the entries of ids that no rigid body has unchanged |
| Scene.RigidRecordStored | particle_system.py:41-57 | the last rigid body with an id is that id's registry entry, even if fluid blocks share the id |
| Scene.FluidRecordStored | particle_system.py:41-57 | the last fluid block with an id is that id's registry entry when no rigid body has the id |
| Scene.InsertFluidsFromConfigs | particle_system.py:38-41 | every entry after the fluid loop is a configured fluid block under its own id |
| Scene.InsertRigidsFromConfigs | particle_system.py:52-57 | the rigid loop adds only configured rigid bodies, each under its own id |
| Scene.CollectionFromConfigs | particle_system.py:41-57 | every registry entry is a configured record, stored under that record's id |
| Scene.InsertFluidsOnlyFluid | particle_system.py:38-41 | after the fluid loop, every entry is a fluid block |
| Scene.InsertRigidsKinds | particle_system.py:52-58 | starting from fluid-only entries, an id belongs to a rigid body exactly when its entry after the rigid loop is rigid |
| Scene.RigidIdsTagRigidEntries | particle_system.py:30-58 | rigid_object_id holds exactly the ids whose entry is a rigid body; a fluid id is tagged only if a rigid body shares it |
| Scene.FluidTotalAppend | particle_system.py:37-42 | the fluid total over a concatenation is the sum of the two totals, so every block counts once whatever its id |
| Scene.RigidTotalAppend | particle_system.py:51-59 | the rigid total over a concatenation is the sum of the two totals, so every body counts once whatever its id |
| Scene.DuplicateIdStillCounted | particle_system.py:38-42 | two fluid blocks sharing an id: the registry keeps only the second, and the fluid total counts both |

## Left out

- `load_rigid_body` internals (particle_system.py:75-86): mesh loading, scaling, rotation, translation, voxelization and fill run in the trimesh library. They are the `loadRigidBody` parameter, a total function from configured geometry and pitch to points. The rotation axis at line 80 is taken from `rotationAngle`; that defect is inside this pipeline and is not modelled.
- The `mesh` key stored on each rigid record (particle_system.py:84) is a library object and is not modelled.
- Failures of the mesh pipeline (missing or unreadable geometry file) abort the Python constructor with an exception. The model's pipeline always returns a point cloud.
- `particle_volume` (particle_system.py:22-23): floating-point arithmetic with pi and a power.
- Insertion order of `object_collection`: a Python dictionary remembers the order of first insertion, and an overwritten key keeps its first position. The model's `map` has no order. Nothing in setup iterates the registry, but later stages receive it in that order.
- `density0` (particle_system.py:17) and the material constants (particle_system.py:27-28) are unused in this file.
- The progress output (`print`, particle_system.py:34-64) is logging only.
- The Taichi `data_oriented` decorator and the imports (particle_system.py:1-6) carry no logic.
- Parsing of the configuration dictionary (particle_system.py:9-16): the constructor takes typed vectors and record lists. The `simulation_config` and `config` attributes are not kept.
- Floating point: all coordinates are exact reals. numpy's `arange` and `ceil` round in IEEE-754, which can change a count by one near exact multiples of the pitch. For example, in doubles (1.3 - 1.0) / 0.1 is 3.0000000000000004, so numpy's `arange(1.0, 1.3, 0.1)` has 4 elements, while the exact model has 3.
- `grid_num` is cast to 32-bit integers with `astype(np.int32)`. The cast only matters for counts above the int32 range (2^31 - 1), where numpy's result is platform-dependent. The model keeps unbounded integers.
- Particles.ParticleSystem.constructor: requires a positive radius, the configuration's own invariant. With a negative radius the source would still count fluid particles (arange then steps downward, which `Lattice.Arange` does model), but the grid counts and voxelization pitch lose their meaning. With a zero radius, arange raises an error.
- Particles.ParticleSystem.constructor: requires `domainStart` and `domainEnd` of equal length. numpy would raise on other lengths or broadcast a length-1 vector. It also requires every fluid block to have at least `dim` coordinates, since the source raises an IndexError otherwise.
