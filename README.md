# Volume rendering: slice geometry and RGBA volume, in Dafny

This project models the two pieces of data preparation in the OpenGL volume
renderer `VolumeRendering/main.cpp`, and proves what they produce:

- **Slice geometry** (`SliceGeometry`, `slice_geometry.dfy`). `main` builds one
  textured quad per slice of the 109-slice scan into a flat vertex buffer of
  floats and an index buffer of `GLuint`. A vertex is 6 floats: position
  (x, y, z), then texture coordinate (u, v, w). Each slice is 24 floats and 6
  indices. One `for j` loop fills both buffers through three counters: `i`
  (float slot), `lIndex` (index slot) and `iIndex` (first vertex of the slice).
  `BuildSliceBuffers` models that loop over arrays. Its postcondition ties the
  arrays to two specification functions, `VertexBuffer(n)` and `IndexBuffer(n)`.
  The lemmas then prove the layout slice by slice and vertex by vertex. They
  also prove that each index names a vertex that exists, that every vertex is
  used, and that each triangle lies in one slice with the same winding as the
  others.
  - Slice depth is `z = -1 + 2j/109`. The divisor is the literal 109, not the
    slice count.
  - The texture depth is `w = z + 1/2`, because of operator precedence. So
    the `w` handed to the shader ranges over [-0.5, 1.5), and lies in the
    texture's [0, 1] only for slices 28 to 81 (`TexWInsideVolume`). If the
    shader passes it through unchanged, the other slices sample the
    `GL_CLAMP_TO_BORDER` border (VolumeRendering/main.cpp:243).
- **Intensity to RGBA** (`VolumeLoader`, `volume_loader.dfy`). `initTextures`
  expands `W*H*D` one-byte intensities into `4*W*H*D` bytes. Each voxel becomes
  `(v, v, v, 255)`, and its alpha is overwritten with 0 when `chBuffer[k] < 20`.
  - That comparison is on a C `char`. The model keeps the raw bit patterns as
    bytes 0..255 and takes the signedness of `char` as a parameter.
  - With a signed `char`, which the usual x86 targets have, bytes 128..255
    compare as negative and become transparent too. `Alpha` states both
    readings. `SmallVolumeExample` shows the difference on `[10, 30, 200, 0]`:
    200 gets alpha 0 when `char` is signed and 255 when it is unsigned.
  - Likewise, an all-255 volume is fully opaque only under an unsigned `char`
    (`MaxIntensityVolume`).
  - `ExpandToRgba` has no `modifies` clause for the input buffer, so Dafny
    checks that the conversion leaves the input unchanged.

Floats are modelled as `real`. Both modules import the scan dimensions and the
C `int` range from one module, `ScanConfig` (`scan_config.dfy`), as the source
has one set of globals (VolumeRendering/main.cpp:27-29). The C `int` counters
are bounded by preconditions that keep them below 2^31-1. The helpers `PutSlice`, `PutVertex`,
`PutQuadIndices` and `PutVoxel` each hold the straight-line writes of one loop
iteration. The source writes these inline with `i++` and `lIndex++`. The model
writes them at `i + 0 .. i + 23` and advances the counter once.

## Model

| member | source | states |
|---|---|---|
| `VolumeLoader.CharValue` | VolumeRendering/main.cpp:254 | the value a `char` holding a byte compares as: the byte itself when `char` is unsigned, a value in -128..127 with the same bit pattern (equal modulo 256) when it is signed |
| `VolumeLoader.Alpha` | VolumeRendering/main.cpp:253-257 | alpha is only ever 0 or 255, and it is 0 exactly when the intensity is below 20 or, for a signed `char`, when the byte is 128 or more |
| `VolumeLoader.ExpandRgba` | VolumeRendering/main.cpp:248-258 | the RGBA buffer has 4 bytes per input voxel; for every voxel k, bytes 4k, 4k+1 and 4k+2 equal input byte k and byte 4k+3 is that byte's alpha |
| `VolumeLoader.PutVoxel` | VolumeRendering/main.cpp:250-257 | one iteration writes exactly the four bytes of voxel k (alpha 255, then overwritten with 0 below the threshold) after the prefix already written, and leaves the bytes after them unchanged |
| `VolumeLoader.ExpandToRgba` | VolumeRendering/main.cpp:233-258 | the loop over all W*H*D voxels fills a buffer of length 4*W*H*D that equals `ExpandRgba` of the input; the input array is not modified |
| `VolumeLoader.InitTextures` | VolumeRendering/main.cpp:226-258 | for the fixed 256 x 256 x 109 scan the uploaded RGBA buffer has 28,573,696 bytes and is the expansion of the scan |
| `VolumeLoader.VoxelIsLocal` | VolumeRendering/main.cpp:248-258 | output voxel k depends only on input byte k: two inputs that agree at k give the same four bytes there |
| `VolumeLoader.MaxIntensityVolume` | VolumeRendering/main.cpp:250-257 | an all-255 volume expands to all-255 colour bytes; its alpha bytes are 255 for an unsigned `char` and 0 for a signed one |
| `VolumeLoader.SmallVolumeExample` | VolumeRendering/main.cpp:248-258 | the four voxels [10, 30, 200, 0] (a 2x2x1 volume) expand to [10,10,10,0, 30,30,30,255, 200,200,200,a, 0,0,0,0], with a = 0 for a signed `char` and 255 for an unsigned one |
| `SliceGeometry.MappedZ` | VolumeRendering/main.cpp:84 | slice depth is -1 exactly for slice 0 and lies in [-1, 1) for the 109 slices |
| `SliceGeometry.SliceDepthOrder` | VolumeRendering/main.cpp:84 | depth strictly increases with the slice index, in steps of 2/109 |
| `SliceGeometry.TexWInsideVolume` | VolumeRendering/main.cpp:84-86 | the texture depth z + 0.5 that the 109 slices give the shader lies in [-0.5, 1.5), and inside [0, 1] exactly for slices 28 to 81 |
| `SliceGeometry.SliceQuad` | VolumeRendering/main.cpp:84-99 | a slice has 4 vertices, all at the slice's depth z with texture depth z + 0.5; each corner is at x, y = +-0.5 and its texture coordinate is its position shifted by 0.5 (u = x + 0.5, v = y + 0.5) |
| `SliceGeometry.VertexBuffer` | VolumeRendering/main.cpp:75-100 | after n slices the vertex buffer holds exactly 24n floats |
| `SliceGeometry.IndexBuffer` | VolumeRendering/main.cpp:78-104 | after n slices the index buffer holds exactly 6n entries, and every entry is below 4n, so none refers past the vertices written |
| `SliceGeometry.PutVertex` | VolumeRendering/main.cpp:89-90 | six consecutive writes put a vertex's position and texture coordinate at float slots i..i+5 and change nothing else |
| `SliceGeometry.PutSlice` | VolumeRendering/main.cpp:84-99 | one iteration's 24 writes put the quad of slice j after the prefix already written and change nothing after it |
| `SliceGeometry.PutQuadIndices` | VolumeRendering/main.cpp:102-103 | one iteration's 6 index writes are iIndex + (0, 1, 3, 1, 2, 3) at slots lIndex..lIndex+5, and nothing else changes |
| `SliceGeometry.BuildSliceBuffers` | VolumeRendering/main.cpp:75-105 | the buffers are sized 24N and 6N and the loop fills them to exactly `VertexBuffer(N)` and `IndexBuffer(N)`; its invariant keeps i = 24j, lIndex = 6j and iIndex = 4j, so every slot is written exactly once |
| `SliceGeometry.VertexBufferSlice` | VolumeRendering/main.cpp:81-100 | the 24 floats of slice j sit at offset 24j of the vertex buffer |
| `SliceGeometry.IndexBufferSlice` | VolumeRendering/main.cpp:101-104 | index entries 6j..6j+5 are 4j, 4j+1, 4j+3, 4j+1, 4j+2, 4j+3: two triangles sharing the edge (4j+1, 4j+3) |
| `SliceGeometry.VertexRecord` | VolumeRendering/main.cpp:88-99 | floats 6(4j+c)..6(4j+c)+5 are exactly corner c of slice j: the buffer is a sequence of whole 6-float vertices |
| `SliceGeometry.CornerPosition` | VolumeRendering/main.cpp:89-99 | the position stored for vertex 4j+c is the position of corner c of slice j |
| `SliceGeometry.IndexBufferCoversVertices` | VolumeRendering/main.cpp:101-104 | every one of the 4N vertices is referenced by the index buffer |
| `SliceGeometry.QuadTrianglesInSlice` | VolumeRendering/main.cpp:88-104 | the six indices of slice j name vertices of that slice's quad only, and all of them lie at the slice's depth, so each triangle lies in its slice |
| `SliceGeometry.QuadWinding` | VolumeRendering/main.cpp:89-103 | both triangles of slice j, (4j, 4j+1, 4j+3) and (4j+1, 4j+2, 4j+3), wind clockwise with area 1/2, so together they cover the quad with one consistent winding |

## Left out

- Window and context creation, callbacks, input polling, the camera, the shader
  wrapper, the matrices and the render loop (VolumeRendering/main.cpp:41-73,
  136-224): windowing and event I/O and floating-point transforms in code that
  is not part of this model (Shader.h and Camera.h are not part of this model).
- Every `gl*` call: buffer and texture uploads, texture parameters, blend state
  and the draw call (VolumeRendering/main.cpp:107-130, 173, 238-262). These are
  foreign calls into the driver. The draw call's count `6 * m_uImageCount` is
  the index buffer length that `BuildSliceBuffers` states.
- The file read (VolumeRendering/main.cpp:228-236) is I/O. The model takes the
  bytes it delivered as an input array of length W*H*D. A short read, which
  leaves the buffer uninitialised in the source, is not modelled.
- The shaders (`Shaders/vertex.glsl`, `Shaders/fragment.glsl`, loaded at
  VolumeRendering/main.cpp:132) are not part of this model. The model states
  the texture coordinates the vertex buffer hands them, not what they sample:
  that also depends on `GL_LINEAR` filtering (VolumeRendering/main.cpp:244-245),
  which blends border texels into slices just inside [0, 1].
- IEEE single-precision rounding of z and w: both are modelled as reals.
- The conversion of the int 255 to a `char` at VolumeRendering/main.cpp:253 is
  implementation-defined for a signed `char`. The model stores the bit pattern
  0xFF, which is what the usual targets produce and what the upload reads.
- Heap allocation, `delete[]`, frame timing and the window title.
- `BuildSliceBuffers`, `ExpandToRgba`, `InitTextures`: do not state that the
  arrays they return are freshly allocated, although the source allocates them
  with `new`.
