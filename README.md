# Flat-layout serialisation of a WebGPU path tracer's scene and camera

This project models the host side of a small WebGPU path tracer: the code that
turns scene and camera data into the flat float arrays a compute shader reads.
The rest of src/app.ts is device, pipeline and canvas set-up. Four pieces are
modelled, one Dafny module per source file:

- `Generic` (`generic.dfy`): the shared constants (`vec4Size` = 16 bytes, 4-byte floats),
  and `makeVec4ArrayFromAccessor`. That function flattens the elements of a glTF
  accessor and appends a `0` after each one. It is a method with a loop, proved
  against the specification function `Padded`. Lemmas give the output length,
  where each element lands, the 4-float stride for 3-vectors, and the read-back
  of 3-vectors.
- `Materials` (`materials.dfy`): the `Material` record, its constructor defaults
  and option override (`New`), and its 12-float `toArray` layout (`ToArray`). A
  decoder (`FromArray`) and round-trip lemmas are its partners. The exported
  registry is `Registry`. `Pack` lays records end to end through the
  element-generic `Generic.PackRecords`. Lemmas prove that record `i` starts at
  float `12i`, so the registry position is the material index.
- `Spheres` (`spheres.dfy`): the same for `Sphere`, with its own defaults
  (radius 1, roughness 0.5), its own field order, and the sample list `Samples`.
- `Cameras` (`camera.dfy`): the `Camera` class, which holds its options, four
  opaque 4×4 matrices, and the uniform buffer as an `array?<real>`. The buffer is
  null until `MakeBuffer` is called, then it holds 40 floats. Pure functions
  give the 36-float `updateBuffer` array and the 37-float `makeBuffer` array.
  `writeBuffer` is an in-place slice write (`WriteBuffer`, specified by
  `Overwrite`). Lemmas cover offsets, what each write overwrites, and non-overlap.

Numbers are `real`s because the code only copies them. The gl-matrix routines
`mat4.perspective`, `mat4.lookAt` and `mat4.invert` belong to a foreign library.
They are passed in as the total functions of a `MatrixLib` value, so the model
states which inputs each matrix is derived from but says nothing about its entries.

What the serialised layouts and the frame loop do not contain:
- A sphere record holds diffuse, roughness and emissive values. It has no material-index field.
- The camera uniform has no triangle count.
- Nothing in src/app.ts calls `updateTimestep`, and the texture copy-back at src/app.ts:251-260 is commented out.

## Model

| member | source | states |
|---|---|---|
| `Generic.Vec4SizeIsFourFloats` | src/generic.ts:3 | `vec4Size` is 16 bytes, i.e. 4 floats |
| `Generic.FloatIndex` | src/camera.ts:88 | a 4-byte-aligned byte offset addresses the float at offset/4 (result × 4 = offset) |
| `Generic.MakeVec4ArrayFromAccessor` | src/generic.ts:5-12 | the loop that pushes each element and a `0` yields exactly `Padded(input)`; the input is only read |
| `Generic.PaddedLength` | src/generic.ts:8-10 | for elements of lengths k_0..k_{n-1} the output has Σ(k_i + 1) floats |
| `Generic.PaddedElement` | src/generic.ts:8-9 | element i is copied unchanged, in accessor order, at offset Σ_{j<i}(k_j + 1), followed by a `0` |
| `Generic.PaddedVec3` | src/generic.ts:9 | for 3-vectors the output is 4n floats; floats 4i..4i+2 are element i and float 4i+3 is 0 |
| `Generic.UnpadPadded` | src/generic.ts:8-10 | reading a padded 3-vector array with a 4-float stride recovers the elements (round trip) |
| `Generic.PaddedEmpty` | src/generic.ts:6-11 | an accessor with count 0 yields an empty array |
| `Generic.PackedRecordLayout` | src/materials.ts:19-34 | for any list and any fixed-size serialiser with an inverse (here `toArray` of `Material` and of `Sphere`), the packed array is n floats per value, value i occupies floats n·i..n·i+n−1, and it decodes back as value i |
| `Generic.PackedPastEnd` | src/spheres.ts:20-35 | reading a record at an index past the end of a packed list gives nothing |
| `Materials.New` | src/materials.ts:12-23 | `new Material(options)`: each field takes its supplied option, otherwise its class default; the defaults and the override are stated by `NewWithoutOptions` and `NewOverridesOnlyItsField` |
| `Materials.NewWithoutOptions` | src/materials.ts:13-17 | with no options a material has roughness 0, metalness 0 and zero diffuse, specular and emissive |
| `Materials.NewOverridesOnlyItsField` | src/materials.ts:21-23 | a supplied option sets its own field and leaves every other field as without it |
| `Materials.ToArray` | src/materials.ts:25-34 | the record is 12 floats (`Material.size` / 4); diffuse at 0..2, roughness 3, specular 4..6, metalness 7, emissive 8..10; float 11 is 0 whatever the fields |
| `Materials.RoundTrip` | src/materials.ts:25-34 | decoding a record from those offsets recovers the material exactly |
| `Materials.FromArrayCanonical` | src/materials.ts:25-34 | any record that decodes is exactly the serialisation of the material it decodes to |
| `Materials.Registry` | src/materials.ts:37-93 | the exported `materials`, in order, each built by `New` from its options: seven entries; the first four emit nothing, the last three are emitters with black diffuse and specular. Their packed layout is stated by `RegistryLayout` |
| `Materials.RegistryLayout` | src/materials.ts:37-93 | the packed registry is 84 floats and registry position i is material index i, for all 7 materials |
| `Spheres.New` | src/spheres.ts:13-24 | `new Sphere(options)`: each field takes its supplied option, otherwise its class default; the defaults and the override are stated by `NewWithoutOptions` and `NewOverridesOnlyItsField` |
| `Spheres.NewWithoutOptions` | src/spheres.ts:13-18 | with no options a sphere has radius 1, roughness 0.5 and zero position, diffuse and emissive |
| `Spheres.NewOverridesOnlyItsField` | src/spheres.ts:22-24 | a supplied option sets its own field and leaves every other field as without it |
| `Spheres.ToArray` | src/spheres.ts:26-35 | the record is 12 floats (`Sphere.size` / 4); position at 0..2, radius 3, diffuse 4..6, roughness 7, emissive 8..10; float 11 is 0 |
| `Spheres.RoundTrip` | src/spheres.ts:26-35 | decoding a record from those offsets recovers the sphere exactly |
| `Spheres.FromArrayCanonical` | src/spheres.ts:26-35 | any record that decodes is exactly the serialisation of the sphere it decodes to |
| `Spheres.Samples` | src/spheres.ts:38-98 | the exported sample `spheres`, in order, each built by `New` from its options: seven spheres of positive radius; the first four emit nothing, the last three are lights with black diffuse. Their packed layout is stated by `SamplesLayout` |
| `Spheres.SamplesLayout` | src/spheres.ts:39-98 | the packed sample list is 84 floats with sphere i at float 12i, for all 7 spheres |
| `Cameras.BufferGeometry` | src/camera.ts:69-88 | the buffer is (4+4+2)·16 = 160 bytes = 40 floats; byte offset 16·9 = 144 is float 36, just past the 36 floats `updateBuffer` writes |
| `Cameras.UniformArray` | src/camera.ts:56-61 | the `updateBuffer` array is 36 floats: inverse view at 0..15, inverse projection at 16..31, width 32, height 33, near 34, far 35 |
| `Cameras.InitialArray` | src/camera.ts:76-82 | the `makeBuffer` array is 37 floats, fits the buffer, agrees with the `updateBuffer` array on its first 36 floats, and has timestep 0 at 36 |
| `Cameras.Overwrite` | src/camera.ts:62-66 | a write puts `data` at its offset and leaves every float outside that range unchanged |
| `Cameras.InitialBufferLayout` | src/camera.ts:69-84 | a fresh buffer decodes to the camera's fields with timestep 0, and floats 37..39 stay 0 |
| `Cameras.UpdateKeepsTimestep` | src/camera.ts:54-67 | `updateBuffer` replaces every field except the timestep; floats 36..39 are unchanged |
| `Cameras.TimestepOnly` | src/camera.ts:86-89 | `updateTimestep` changes float 36 and nothing else (far at 35 included); the decoded fields differ only in the timestep |
| `Cameras.WritesCommute` | src/camera.ts:54-89 | the `updateBuffer` and `updateTimestep` writes are disjoint, so applying them in either order gives the same buffer |
| `Cameras.UpdateAfterMake` | src/camera.ts:54-84 | `updateBuffer` right after `makeBuffer`, with no state change in between, leaves the buffer as it was |
| `Cameras.WriteBuffer` | src/camera.ts:62-66 | the in-place write of `data` at a byte offset leaves the buffer equal to `Overwrite` of its old contents |
| `Cameras.Camera.constructor` | src/camera.ts:16-34 | each field is its option if supplied, otherwise its default (fovy 2π/5, width = height = 1, near 0.01, far 100, up (0,1,0), zero position and target); the matrices are derived as `updateMatrices` derives them; there is no buffer |
| `Cameras.Camera.UpdateMatrices` | src/camera.ts:36-52 | projection and view are recomputed from the current fields and each inverse from the new forward matrix, all four in one call; nothing else changes |
| `Cameras.Camera.MakeBuffer` | src/camera.ts:69-84 | a fresh 40-float zeroed buffer holds the 37-float initial array; it decodes to the camera's fields with timestep 0 |
| `Cameras.Camera.UpdateBuffer` | src/camera.ts:54-67 | fails with "No camera buffer to update" when no buffer exists; otherwise floats 0..35 become the current serialisation and the timestep is kept |
| `Cameras.Camera.UpdateTimestep` | src/camera.ts:86-89 | fails when no buffer exists; otherwise only float 36 changes, to the given timestep |

## Left out

- Float32 rounding: values are exact reals, since the code only copies them. The rounding sites not modelled are `Float32Array.from`, `set` and `writeBuffer`; every gl-matrix `vec3` and `mat4` field, which is itself a Float32Array, so `vec3.fromValues(0.3, 0.5, 1.0)` at src/materials.ts:39 already rounds when the registry is built; and `Math.PI`, which `MathPi` writes as the decimal literal 3.141592653589793 rather than the exact double.
- The numerics of `mat4.perspective`, `mat4.lookAt` and `mat4.invert`. They are opaque functions. The aspect-ratio division `width / height` is folded into `perspective`, because a zero height gives Infinity or NaN, which a real cannot represent. gl-matrix's `invert` of a singular matrix returns null and leaves its output unwritten. The model's `invert` is total, so that case is not captured.
- Cameras.Camera.constructor: `Object.assign` aliases the caller's `vec3` objects, and an option given explicitly as `undefined` overwrites its default. The model copies values and treats an `undefined` option as omitted.
- Materials.New and Spheres.New: the same aliasing and `undefined` behaviour of `Object.assign` is not modelled.
- Cameras.Camera.UpdateTimestep: the source casts a missing buffer to `GPUBuffer` and lets `writeBuffer` reject it. The model reports that as a failure outcome without the browser's exact error.
- The GPU queue: `writeBuffer` is modelled as taking effect immediately and in call order. Buffer usage flags, mapping and `unmap` are not modelled. The old buffer that `makeBuffer` replaces is not destroyed in the source, and the model just drops it.
- The glTF `Accessor` type is modelled as the sequence of its elements (`getElement(0 .. getCount()-1)`). Component types, normalisation and sparse accessors are not modelled.
- `Pack` and `At` state the record layout the kernel expects. Nothing in src/app.ts concatenates or uploads `materials` or `spheres`.
- The frame loop and set-up in src/app.ts, app.ts and app.js (device acquisition, shader fetch, pipelines, bind groups, canvas configuration, `requestAnimationFrame`, readback, the 64-byte MVP buffer, and the `Math.ceil(size/16)` dispatch sizing) are I/O and WebGPU calls.
- src/triangles.ts is a data class with three zero vectors and no behaviour.
- src/app.ts, app.ts and app.js contain no accumulation scheduler, input controller, scene extractor, culling or BVH, and none of them calls `makeVec4ArrayFromAccessor`; none of these is modelled.
