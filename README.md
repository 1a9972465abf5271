# Continuous-image UV remap for a four-sided pyramid

The viewer wraps an uploaded photo onto a pyramid built as a cone with four
radial segments. Its one piece of logic, `remapUVsForContinuousImage`,
replaces the cone's default texture coordinates so that the four side faces
show one continuous image around the apex instead of four copies of it.

The routine treats the geometry's UV attribute as a flat buffer. It allocates
a zero-filled scratch buffer of the same length. For faces 0 to 3 it writes six
numbers at offset `6 * face`: the apex goes to the image centre (0.5, 0.5) and
the two base vertices take the face's row of a constant table. Each row runs
from the midpoint of one side of the image to the midpoint of the next one. It
then copies the scratch buffer over the attribute's buffer, sets the
attribute's `needsUpdate` flag and returns the same geometry.

The model has two modules:

- `UvLayout` (uv_layout.dfy) holds the pure part: the quadrant table
  `TriangleBases`, the value `NetSlot(i)` of every scratch slot after the face
  loop, the scratch buffer `NetLayout(len)`, and `Remapped(prior)`, the whole
  buffer after the remap as a function of the buffer before it. The lemmas
  about them state what the layout guarantees.
- `UvRemap` (uv_remap.dfy) holds the imperative part. The classes
  `UvAttribute` (with the buffer `uvs: array<real>` and the flag
  `needsUpdate`) and `Geometry` stand in for the objects the routine uses.
  `NetUvs` allocates the scratch buffer and runs the face loop, and its
  postcondition equates the result with `NetLayout`. The method
  `RemapUVsForContinuousImage` calls it, runs the copy loop and sets the flag.
  Its postcondition ties the new buffer to `Remapped` of the old one.

The model follows the code in the places where the code and its comments or
intent differ:

- Slots from index 24 on are set to 0. They do not keep their previous
  values. The comment at script.js:283-284 says the base face keeps its default
  UVs, but the scratch buffer is zero-filled and copied over the whole buffer.
  `TailZeroed` states what the code does.
- A buffer shorter than 24 slots receives only the first slots of the layout.
  A typed array ignores writes past its end, and `StoreIfInRange` models that.
  `ShortBufferGetsPrefix` states the result.
- The `aspectRatio` argument is not used.

Values are modelled as `real`. The routine stores them in a `Float32Array`,
but every value it writes is 0, 0.5 or 1, and each of these is exact in
single precision. So no rounding is lost.

## Model

| member | source | states |
|---|---|---|
| `UvRemap.RemapUVsForContinuousImage` | script.js:228-295 | returns the same geometry, sets `needsUpdate`, and leaves the UV buffer (same array, same length) equal to `Remapped` of its previous contents |
| `UvRemap.NetUvs` | script.js:234-281 | the scratch buffer is a new array and, after the face loop over a zero-filled start, holds exactly `NetLayout` of the requested length: the table values in the first 24 slots that fit, zero in every other slot |
| `UvRemap.WriteFace` | script.js:264-280 | one pass of the face loop changes the buffer exactly as the six stores of `WriteFaceStores` do, in the source's order: apex u, apex v, then the face's table row |
| `UvRemap.StoreIfInRange` | script.js:268-280 | an indexed store into the scratch typed array changes the buffer exactly as `Store` says |
| `UvLayout.Store` | script.js:268-280 | a typed-array store keeps the length, changes only the given index, and does nothing when the index is at or past the end |
| `UvLayout.WriteFaceStoresAt` | script.js:264-280 | one pass of the face loop writes the net value into the slots of its face's block that fit, keeps the length, and leaves every other slot as it was |
| `UvLayout.FaceLoopFromZeros` | script.js:234-281 | after the first n passes of the face loop over a zero-filled buffer, every slot below 6n holds its net value, every other slot is still 0, and the length is unchanged |
| `UvLayout.FaceLoopIsNetLayout` | script.js:234-281 | the four passes of the face loop, store by store, produce exactly the closed-form `NetLayout` |
| `UvLayout.NetLayout` | script.js:234-281 | the scratch buffer after the face loop has the given length, and each slot holds the net value for its index |
| `UvLayout.CopyPrefix` | script.js:287-289 | the copy bounded by `Math.min` keeps the destination's length, takes the source's value in every slot both buffers have, and leaves the rest of the destination as it was |
| `UvLayout.FirstBase` | script.js:245-250 | face f's first base corner is the midpoint of image side f, with the sides taken in the order u = 0, v = 0, u = 1, v = 1 |
| `UvLayout.SecondBase` | script.js:245-250 | face f's second base corner is the midpoint of the next side round, f + 1 (face 3 wraps round to side 0) |
| `UvLayout.FaceSlot` | script.js:241-280 | every value the face loop writes lies in [0, 1], and the two apex slots of every face hold 0.5 |
| `UvLayout.NetSlot` | script.js:234-281 | every scratch slot ends up in [0, 1], and every slot at index 24 or beyond stays 0 |
| `UvLayout.Remapped` | script.js:234-289 | the remapped buffer has the old length, and every slot holds the net value for its index whatever it held before |
| `UvLayout.NetSlotInBlock` | script.js:257-281 | slot `6f + k` of the scratch buffer holds entry k of face f's block: the centre for k = 0 and 1, the table row for k = 2 to 5 |
| `UvLayout.ApexAtCenter` | script.js:241-269 | for each face whose apex slots fit in the buffer, the apex UV is exactly (0.5, 0.5) |
| `UvLayout.BasesFromTable` | script.js:245-280 | for each face whose block fits in the buffer, its two base UVs are exactly the two corners of its row in the table |
| `UvLayout.TailZeroed` | script.js:234-289 | every slot at index 24 or beyond ends up 0, so its prior value is lost |
| `UvLayout.ShortBufferGetsPrefix` | script.js:234-289 | a buffer of fewer than 24 slots becomes the first slots of the 24-slot layout, and the rest of the layout is dropped |
| `UvLayout.OnlyLengthMatters` | script.js:228-289 | two buffers of the same length remap to the same result, so the prior contents (and the aspect ratio) have no effect |
| `UvLayout.RemapIdempotent` | script.js:182-289 | remapping an already remapped buffer gives the same buffer, so the buffer after two calls equals the buffer after one |
| `UvLayout.AdjacentFacesShareCorner` | script.js:243-250 | the second corner of face f's row equals the first corner of face (f + 1) mod 4, so neighbouring faces meet at the same image point |
| `UvLayout.FacesAreQuarterTurns` | script.js:241-250 | each face's second corner is its first corner turned a quarter about the centre, so the four UV triangles all have the same winding and the same area (1/8 of the image) |

## Left out

- Whether the `6 * face` offsets match the real vertex and UV order of the rendering library's cone geometry. That geometry code is not part of this model. The buffer is an abstract array of coordinates, and no claim is made about how the UVs land on the real mesh.
- `UvRemap.RemapUVsForContinuousImage`: setting `needsUpdate` is modelled as storing a flag. In the rendering library that assignment goes through a setter that increments the attribute's version counter, so two calls are not the same as one for that counter. The library's attribute class is not part of this model.
- Float32 rounding: all stored values are exact in single precision, so `real` loses nothing here.
- Scene, camera, renderer and lighting setup, the animation loop and the resize handler are rendering-library plumbing.
- Image upload, file reading, image and texture loading callbacks, alerts and the loading indicator are asynchronous I/O and DOM work.
- Download of the rendered frame as a PNG is browser I/O.
- The degree-to-radian conversion of the rotation slider and the initial yaw of a quarter of pi are floating-point constants with no logic.
- The global `isImageLoaded` and `isProcessing` flags are driven only by DOM events and asynchronous callbacks.
