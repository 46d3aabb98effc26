# Gravity simulator core: vectors, masses and the update step

This project models the core of a small browser gravity simulator written in
TypeScript:

- `Vec2` (src/vec2.ts) is a 2-D vector object with mutable `x`/`y` fields.
  Its value operations (`add`, `sub`, `mul`, `mulScalar`, `divElemWise`,
  `divScalar`, `normalize`) build a new vector. Its in-place twins (`addBy`, …,
  `normalizeTo`) overwrite the receiver. It also has the read-only measures
  `abs`, `absSq`, `distanceFrom` and `distanceFromSq`.
- `Mass` (src/mass.ts) is a point mass built from a configuration
  `{kg, pos, vel}`. It keeps the configuration and holds the configuration's
  own vector objects as its position and velocity; it does not copy them.
- `Sim` (src/sim.ts) is an append-only list of masses. Its `update` moves
  every listed mass's position object by its velocity, in place and in list
  order.

The datatype `Vectors.V2` is the value of a vector and specifies both kinds
of `Vec2` operation. Each value operation ensures its fresh result has the
`V2` value of the operation. Each in-place operation ensures the receiver's
new value is that same `V2` function of the old values. The lemmas beside
`V2` pair each operation with its inverse or a law.

Because masses share vector objects by reference, the effect of `update`
depends on which objects are shared. `Simulation.AdvanceAll` specifies it
exactly, for any sharing: it is a fold, mass by mass, over a snapshot of the
values of every vector object involved. `Sim.Update` is proved against that
fold. The lemmas then say what the fold amounts to:

- when no position object is shared and no velocity object is a position,
  every position gains its velocity;
- when no velocity object is also a position object, each position gains
  the sum of the velocities of all the masses that hold it;
- a mass listed twice, whose velocity object is not its own position
  object, moves by twice its velocity;
- when one mass's velocity object is another mass's position object, the
  outcome depends on the list order.

Numbers are modelled as mathematical reals. `Math.sqrt` is a parameter
`sqrt` constrained by `Vectors.IsSqrt`: it returns the non-negative square
root of every non-negative number.

## Model

| member | source | states |
|---|---|---|
| Vectors.V2.AbsSq | src/vec2.ts:14-16 | the squared length is never negative, and it is zero exactly when both components are zero |
| Vectors.V2.Abs | src/vec2.ts:10-12 | the length is non-negative, its square is the squared length, and it is zero exactly for the zero vector |
| Vectors.V2.DistanceFromSq | src/vec2.ts:35-37 | the squared distance is the squared length of the difference; it is non-negative and zero exactly when the two vectors are equal |
| Vectors.V2.DistanceFrom | src/vec2.ts:29-33 | the distance is non-negative, its square is the squared distance, and it is zero exactly when the two vectors are equal |
| Vectors.V2.Normalize | src/vec2.ts:24-27 | a non-zero vector normalizes to a vector of unit length, and scaling it back by the old length gives the original vector |
| Vectors.V2.NormalizedTo | src/vec2.ts:18-22 | the result is the unit vector scaled by the requested length, so its squared length is the square of that length |
| Vectors.AddCommutes | src/vec2.ts:39-41 | vector addition is commutative |
| Vectors.AddAssociative | src/vec2.ts:39-41 | vector addition is associative, so successive `addBy` steps can be regrouped |
| Vectors.SubUndoesAdd | src/vec2.ts:48-50 | subtracting undoes adding, and adding undoes subtracting |
| Vectors.DivElemWiseUndoesMul | src/vec2.ts:75-77 | with non-zero divisor components, component-wise division undoes component-wise multiplication, and the other way round |
| Vectors.DivScalarUndoesMulScalar | src/vec2.ts:84-86 | with a non-zero scalar, division by it undoes multiplication by it, and the other way round |
| Vectors.DistanceSymmetric | src/vec2.ts:29-37 | the distance and squared distance from a to b equal those from b to a |
| Vectors.DistanceIsAbsOfSub | src/vec2.ts:29-33 | the distance between two vectors is the length of their difference |
| Vectors.NormalizedToOne | src/vec2.ts:18-27 | normalizing to length 1 gives the same value as `normalize` |
| Vectors.Vec2.constructor | src/vec2.ts:5-8 | a new vector holds the given components |
| Vectors.Vec2.AbsSq | src/vec2.ts:14-16 | the object's squared length is non-negative and is that of its value |
| Vectors.Vec2.Abs | src/vec2.ts:10-12 | the object's length is non-negative and squares to its squared length |
| Vectors.Vec2.DistanceFromSq | src/vec2.ts:35-37 | the squared distance between two objects is that of their values, and an object is at distance zero from itself |
| Vectors.Vec2.DistanceFrom | src/vec2.ts:29-33 | the distance between two objects is non-negative and squares to their squared distance |
| Vectors.Vec2.Add | src/vec2.ts:39-41 | returns a fresh vector holding the sum; neither operand changes |
| Vectors.Vec2.AddBy | src/vec2.ts:43-46 | the receiver becomes the old sum; the other vector changes only if it is the receiver itself |
| Vectors.Vec2.Sub | src/vec2.ts:48-50 | returns a fresh vector holding the difference; neither operand changes |
| Vectors.Vec2.SubBy | src/vec2.ts:52-55 | the receiver becomes the old difference; the other vector changes only if it is the receiver itself |
| Vectors.Vec2.Mul | src/vec2.ts:57-59 | returns a fresh vector holding the component-wise product; neither operand changes |
| Vectors.Vec2.MulBy | src/vec2.ts:61-64 | the receiver becomes the old component-wise product; the other vector changes only if it is the receiver itself |
| Vectors.Vec2.MulScalar | src/vec2.ts:66-68 | returns a fresh vector holding the scaled value; the receiver does not change |
| Vectors.Vec2.MulScalarBy | src/vec2.ts:70-73 | the receiver becomes its old value scaled |
| Vectors.Vec2.DivElemWise | src/vec2.ts:75-77 | returns a fresh vector holding the component-wise quotient; neither operand changes |
| Vectors.Vec2.DivElemWiseBy | src/vec2.ts:79-82 | the receiver becomes the old component-wise quotient; the other vector changes only if it is the receiver itself |
| Vectors.Vec2.DivScalar | src/vec2.ts:84-86 | returns a fresh vector holding the value divided by the scalar; the receiver does not change |
| Vectors.Vec2.DivScalarBy | src/vec2.ts:88-91 | the receiver becomes its old value divided by the scalar |
| Vectors.Vec2.Normalize | src/vec2.ts:24-27 | returns a fresh vector of unit length holding the normalized value; the receiver does not change |
| Vectors.Vec2.NormalizeTo | src/vec2.ts:18-22 | the receiver becomes its old value normalized and scaled to the given length, so its squared length is the square of that length |
| Masses.Mass.constructor | src/mass.ts:9-20 | the mass keeps the configuration, holds the configuration's own position and velocity objects, takes its weight, starts at zero acceleration, and changes no vector |
| Simulation.Sim.constructor | src/sim.ts:4-6 | a new simulation lists no mass |
| Simulation.Sim.AddMass | src/sim.ts:8-10 | the mass is appended and the masses already listed keep their places |
| Simulation.Sim.AddMassMany | src/sim.ts:12-14 | the masses are appended in their order, the earlier list is a prefix, and an empty list changes nothing |
| Simulation.Sim.Update | src/sim.ts:16-21 | only position objects are written; the list and every mass keep their fields; every vector object ends at the value the mass-by-mass fold `AdvanceAll` gives from the old values |
| Simulation.StepAll | src/sim.ts:17-20 | the loop over the listed masses: when the ghost store holds the old values of every position and velocity object, each object ends at the value the fold `AdvanceAll` gives |
| Simulation.Step | src/sim.ts:18-19 | one pass of the loop: the position object takes its old value plus the velocity object's old value, whichever objects the two are, so the objects end at the values one `Advance` step gives |
| Simulation.Advance | src/sim.ts:18-19 | one mass's step changes only its position object and keeps the set of objects |
| Simulation.AdvanceAll | src/sim.ts:17-20 | the fold over all masses keeps the set of objects |
| Simulation.AdvanceAllStep | src/sim.ts:17-20 | the fold over the first i+1 masses is the fold over the first i followed by mass i's step |
| Simulation.AdvanceAllKeepsNonPositions | src/sim.ts:16-21 | an object that is no mass's position keeps its value, whatever the sharing |
| Simulation.AdvanceAllSumsPushes | src/sim.ts:16-21 | when no velocity object is a position object, each object ends at its old value plus the velocities of every mass that holds it as position |
| Simulation.AdvanceAllUnshared | src/sim.ts:16-21 | with distinct position objects and no velocity that is a position, each position gains exactly its own velocity and each velocity keeps its value |
| Simulation.SameMassTwice | src/sim.ts:16-21 | a mass listed twice, whose velocity object is not its own position object, moves by twice its velocity |
| Simulation.SharedPosition | src/sim.ts:16-21 | two masses on one position object, whose velocity objects are not that position object, move it by both velocities |
| Simulation.UpdateSharedPosition | src/sim.ts:16-21 | one `update` of two masses sharing a position object, whose velocity objects are not that position object, moves that object by both velocities |
| Simulation.VelocityIsEarlierPosition | src/sim.ts:16-21 | when a mass's velocity object is another mass's position object, the result depends on order: listed after that mass it adds the already moved value, listed before it adds the old one |

## Left out

- IEEE-754 arithmetic: numbers are reals, so rounding, overflow to Infinity and NaN are not modelled. `Math.pow(d, 2)` and `d * d` are the same function `Sq`.
- Vectors.V2.DivElemWise, Vectors.V2.DivScalar and their `Vec2` methods require non-zero divisors. The source divides anyway and yields Infinity or NaN.
- Vectors.V2.Normalize, Vectors.V2.NormalizedTo, Vectors.Vec2.Normalize and Vectors.Vec2.NormalizeTo require a non-zero vector. The source divides by a zero length and yields NaN components. The code has no guard for this case, and the model follows the code rather than adding a zero-vector fallback.
- `Math.sqrt` is a parameter satisfying `IsSqrt` rather than a fixed function; every property proved holds for any such function.
- `Mass.draw` (src/mass.ts:22-27) only renders on a canvas and changes no model state.
- The mass's `config` is an immutable record holding references, so reassigning `config.pos` after construction is not modelled. The vector objects it names are shared, as in the source.
- The mass's `acc` is a plain `V2` value of zeros, because the source assigns an object literal rather than a `Vec2`; nothing in the core reads or writes it again.
- `Sim.masses` is private in the source; in the model it is a field that only the class's methods assign.
- The core has no forces, collisions, merging, identifiers, history or preset import and export; none of these exists in these three source files, so none is modelled.
- Simulation.Sim.Update states the effect through `AdvanceAll`; that every position simply gains its velocity holds only when objects are not shared, and is stated separately by `AdvanceAllUnshared` and its neighbours rather than in `Update`'s own contract.
