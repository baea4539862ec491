# Matrices, fly camera and meshes of a small WebGL renderer

This project models the three core files of a small WebGL homework renderer in Dafny.

- **transformations.js** is the 4x4 matrix library.
  - Matrices are 16 numbers in column-major order.
  - It has perspective and orthographic projections, identity, translate, rotate about X and Y, and a product.
  - It has a diagonal scale and an inverse for affine matrices, which falls back to the identity when the absolute value of the determinant of the upper 3x3 block is below 1e-8.
- **camera.js** is a free-fly camera with a position, yaw and pitch in degrees, a speed and a mouse sensitivity.
  - It keeps a forward/right basis that `updateVectors` recomputes from the angles.
  - The keyboard handler moves the position along that basis.
  - The mouse handler turns the camera and clamps the pitch to [-89, 89].
- **shapes.js** builds meshes as flat arrays: three numbers per vertex, three per normal, three indices per triangle.
  - `createCube` returns literals.
  - `createSphere` and `createCylinder` push into arrays inside nested loops.

## How the model is built

- **vectors.dfy (`Vectors`):** the three-component vector shared by the other modules, with a dot product.
- **transformations.dfy (`Transformations`):** a matrix is the datatype `Mat4`, with one field per array entry. No source function mutates its arguments, and each returns a new array, so matrices are values.
  - Every operation except the product is a function. Each is specified as follows:
    - The projections and the identity: by where `Apply` sends points (`PerspectiveDivide`, `OrthoX`, `IdentityApply`, ...).
    - Translate and the rotations: as post-multiplication by the corresponding matrix under `Mul`. Each is undone by its opposite.
    - Scale: it agrees with `Mul` by a diagonal matrix only on matrices whose first three columns are zero off the diagonal (`ScaleIsMulOnDiagonalBasis`). `ScaleIsNotMulOnRotation` gives a matrix where the two differ.
    - The inverse: a two-sided inverse under `Mul` of every affine matrix whose 3x3 block has a determinant of absolute value at least 1e-8.
  - `multiplyMat4` keeps its three loops: `MultiplyMat4` is a method over a 16-entry array, proved equal to `Mul`.
  - The cosine, sine and tangent values are parameters.
- **camera.dfy (`FlyCamera`):** the camera is a class whose fields the methods update.
  - `Math.cos`/`Math.sin` of degrees and `Math.hypot` come in as a `Trig` value.
  - The ghost predicate `Sound` states what the proofs use about them.
  - The invariant `Valid()` says:
    - the pitch is within the clamp;
    - forward and right are unit vectors and orthogonal;
    - right is horizontal.
- **shapes.dfy (`Shapes`):** meshes are the datatype `Mesh`.
  - Sphere and cylinder are methods whose loops grow `seq` variables.
  - Each loop is proved to produce a specification function, defined row by row.
  - The lemmas about those functions give:
    - the closed-form sizes;
    - that every index names an existing vertex;
    - which vertex an index names.
  - The sine and cosine of each band's angle come from a `BandTrig` value indexed by the loop counter.
  - `createSphere`'s two loop nests are the methods `SphereVertexLoop` and `SphereIndexLoop`, which `CreateSphere` runs one after the other.

## Model

| member | source | states |
|---|---|---|
| Transformations.Perspective | transformations.js:3-7 | Definition: the 16 entries of the returned array, with f = 1 / tan(fov / 2) given. Requires aspect != 0 and near != far. |
| Transformations.PerspectiveDivide | transformations.js:3-7 | The perspective matrix scales x by f / aspect and y by f, and puts -z into w (the perspective divide). |
| Transformations.PerspectiveClipPlanes | transformations.js:5-6 | Every point (x, y, -near, 1) on the near plane gets clip depth -near and w = near. Every point (x, y, -far, 1) on the far plane gets depth far and w = far. |
| Transformations.PerspectiveDepthRange | transformations.js:5-6 | After the divide, every point of the near plane lands at depth -1 and every point of the far plane at +1. This needs near and far non-zero. |
| Transformations.Ortho | transformations.js:10-13 | Definition: the 16 entries of the returned array. Requires left != right, bottom != top and near != far. |
| Transformations.OrthoX | transformations.js:10-12 | x = left maps to -1 and x = right to +1. |
| Transformations.OrthoY | transformations.js:10-12 | y = bottom maps to -1 and y = top to +1. |
| Transformations.OrthoZ | transformations.js:10-12 | z = -near maps to -1 and z = -far to +1. |
| Transformations.OrthoKeepsW | transformations.js:12 | The orthographic matrix leaves w unchanged: its last row is 0 0 0 1. |
| Transformations.Identity | transformations.js:16-18 | Definition: ones on the diagonal, zeros elsewhere. |
| Transformations.IdentityApply | transformations.js:16-18 | The identity leaves every point unchanged. |
| Transformations.MulEntry | transformations.js:75-80 | Entry j * 4 + i of the product is the sum over k of a[k * 4 + i] * b[j * 4 + k]. |
| Transformations.MultiplyMat4 | transformations.js:73-83 | The three nested loops return exactly the product `Mul(a, b)`. |
| Transformations.MulIdentityRight | transformations.js:73-83 | m * identity == m. |
| Transformations.MulIdentityLeft | transformations.js:73-83 | identity * m == m. |
| Transformations.MulByColumns | transformations.js:73-83 | Column j of a * b is a applied to column j of b. |
| Transformations.MulApply | transformations.js:73-83 | The column-major convention: a * b transforms a point as b first and then a. |
| Transformations.Translate | transformations.js:21-28 | Entries 0 to 11 are copied unchanged; only the last column changes. |
| Transformations.TranslateIsMul | transformations.js:21-28 | translate(m, t) == m * T(t), with T(t) the translation matrix. |
| Transformations.TranslateTwice | transformations.js:21-28 | Translating by s and then by t equals one translation by s + t. |
| Transformations.TranslateUndo | transformations.js:21-28 | Translating by -t undoes translating by t. |
| Transformations.RotateX | transformations.js:31-49 | Columns 0 and 3 are copied unchanged. |
| Transformations.RotateY | transformations.js:52-70 | Columns 1 and 3 are copied unchanged. |
| Transformations.RotateXIsMul | transformations.js:31-49 | rotateX(m, angle) == m * Rx(angle), with Rx the rotation about X. |
| Transformations.RotateYIsMul | transformations.js:52-70 | rotateY(m, angle) == m * Ry(angle), with Ry the rotation about Y. |
| Transformations.RotateXUndo | transformations.js:31-49 | When cos^2 + sin^2 = 1, rotating by -angle undoes rotating by angle. |
| Transformations.RotateYUndo | transformations.js:52-70 | When cos^2 + sin^2 = 1, rotating by -angle undoes rotating by angle. |
| Transformations.Scale | transformations.js:85-92 | Every entry other than 0, 5 and 10 is copied unchanged. |
| Transformations.ScaleIsMulOnDiagonalBasis | transformations.js:85-92 | On a matrix whose first three columns are zero off the diagonal, scale(m, s) == m * S(s). |
| Transformations.ScaleIsNotMulOnRotation | transformations.js:85-92 | On a 90-degree rotation about Y, scaling by (2, 1, 1) leaves entry 2 at -1 while m * S gives -2. Only the diagonal entries are scaled, not whole columns. |
| Transformations.ScaleUndo | transformations.js:85-92 | Scaling by the reciprocal factors undoes a scale by non-zero factors. |
| Transformations.Inverse | transformations.js:94-131 | If the absolute determinant is below 1e-8, the result is the identity. Otherwise it is the cofactor block times 1 / det plus the inverse translation. Either way the result is affine. |
| Transformations.AffineInverseTwoSided | transformations.js:106-128 | For every affine m with a non-zero 3x3 determinant, the entries the source computes with invDet = 1 / det form a two-sided inverse: m times them and them times m are both the identity. |
| Transformations.InverseBlock | transformations.js:109-128 | inv[3], inv[7] and inv[11] are 0 and inv[15] is 1. |
| Transformations.InverseRightColumn0 | transformations.js:109-111 | m's 3x3 block times (inv[0], inv[1], inv[2]) is the first unit column. |
| Transformations.InverseRightColumn1 | transformations.js:114-116 | m's 3x3 block times (inv[4], inv[5], inv[6]) is the second unit column. |
| Transformations.InverseRightColumn2 | transformations.js:119-121 | m's 3x3 block times (inv[8], inv[9], inv[10]) is the third unit column. |
| Transformations.InverseLeftRow0 | transformations.js:109-121 | Row 0 of the cofactor block times m's 3x3 block is the first unit row. |
| Transformations.InverseLeftRow1 | transformations.js:109-121 | Row 1 of the cofactor block times m's 3x3 block is the second unit row. |
| Transformations.InverseLeftRow2 | transformations.js:109-121 | Row 2 of the cofactor block times m's 3x3 block is the third unit row. |
| Transformations.CofactorsRightInverse | transformations.js:109-121 | When det * invDet = 1, the cofactor block is a right inverse of m's 3x3 block. |
| Transformations.CofactorsLeftInverse | transformations.js:109-121 | When det * invDet = 1, the cofactor block is a left inverse of m's 3x3 block. |
| Transformations.RightTranslationColumn | transformations.js:125-128 | m applied to the inverse's last column gives (0, 0, 0, 1). |
| Transformations.LeftTranslationColumn | transformations.js:125-128 | The inverse applied to m's last column gives (0, 0, 0, 1). |
| Transformations.AffineRightInverse | transformations.js:108-128 | Two affine matrices whose blocks are inverse, and whose translations cancel, multiply to the identity (a * b). |
| Transformations.AffineLeftInverse | transformations.js:108-128 | The same two matrices also multiply to the identity in the other order (b * a). |
| Transformations.InverseRight | transformations.js:94-131 | For an affine m whose absolute determinant is at least 1e-8, m * inverse(m) == identity. |
| Transformations.InverseLeft | transformations.js:94-131 | For the same m, inverse(m) * m == identity. |
| FlyCamera.Add | camera.js:48 | Definition: the componentwise sum. |
| FlyCamera.Scale | camera.js:49 | Definition: every component times s. |
| FlyCamera.Cross | camera.js:50-54 | cross(a, b) is orthogonal to both a and b. |
| FlyCamera.CrossWorldUp | camera.js:22-25 | cross(f, (0, 1, 0)) == (-f.z, 0, f.x), a horizontal vector. |
| FlyCamera.Normalize | camera.js:55-58 | Scaling the result by the length of a gives back a. The length must be non-zero. |
| FlyCamera.NormalizeUnit | camera.js:55-58 | With sound trigonometry, the normalized vector has unit length. |
| FlyCamera.Clamp | camera.js:42 | The result lies in [-89, 89]. It equals the input exactly when the input is inside, and it saturates at the nearer bound otherwise. |
| FlyCamera.Forward | camera.js:15-20 | Definition: forward = (cos yaw * cos pitch, sin pitch, sin yaw * cos pitch), with the angles in degrees. |
| FlyCamera.ForwardUnit | camera.js:15-20 | (cos yaw cos pitch, sin pitch, sin yaw cos pitch) is a unit vector. |
| FlyCamera.RightFromForward | camera.js:20-25 | For pitch in [-89, 89], cross(forward, up) is non-zero, and normalizing it gives (-sin yaw, 0, cos yaw). |
| FlyCamera.BasisOrthonormal | camera.js:20-25 | forward and right are orthogonal, and right is a horizontal unit vector. |
| FlyCamera.NoKeysStayPut | camera.js:28-36 | With none of w, s, a, d pressed, the position does not move. |
| FlyCamera.OppositeKeysCancel | camera.js:32-35 | Pressing w and s together, and a and d together, cancels out. |
| FlyCamera.StrafeKeepsHeight | camera.js:34-35 | With a horizontal right vector, strafing with a or d keeps the height. |
| FlyCamera.ForwardStepLength | camera.js:32 | With a unit forward vector, pressing only w moves the camera by exactly speed. |
| FlyCamera.ValidBasisMoves | camera.js:28-36 | On a unit forward and a horizontal right vector, every keyboard step is steady: with w and s both up or both down it keeps the height, and with w alone it moves exactly speed. |
| FlyCamera.Camera.constructor | camera.js:2-11 | Sets the default fields, satisfies `Valid()`, and right == cross(forward, up). |
| FlyCamera.Camera.UpdateVectors | camera.js:13-26 | forward and right become the functions of yaw and pitch above. `Valid()` is re-established and the other fields are unchanged. |
| FlyCamera.Camera.HandleKeyboard | camera.js:28-36 | The new position is the old one moved by the pressed keys along the unchanged basis. Every other field is unchanged and `Valid()` is kept. From a valid camera the step is steady: with w and s both up or both down it keeps the height, and with w alone it moves exactly speed. |
| FlyCamera.Camera.HandleMouse | camera.js:38-44 | Yaw gains dx * sensitivity and pitch becomes the clamp of pitch + dy * sensitivity. The basis is recomputed, `Valid()` holds afterwards, and the position, speed and sensitivity are unchanged. |
| Shapes.CreateCube | shapes.js:1-31 | 24 vertex numbers, 24 normal numbers and 36 indices: 8 corners and 12 triangles. |
| Shapes.CubeIndicesInRange | shapes.js:15-28 | Every cube index is in [0, 8). |
| Shapes.CubeCorners | shapes.js:2-7 | Every corner coordinate is 1 or -1. |
| Shapes.SpherePoint | shapes.js:38-50 | Definition: the point (cos lon * sin lat, cos lat, sin lon * sin lat) pushed for band (lat, lon). |
| Shapes.SphereVerticesLength | shapes.js:37-52 | rows rows of n + 1 points give 3 * rows * (n + 1) numbers. |
| Shapes.SphereVertexAt | shapes.js:49-56 | Vertex number lat * (lonBands + 1) + lon, the index formula of the triangle loop, is the point pushed for (lat, lon). |
| Shapes.SphereIndicesLength | shapes.js:54-62 | rows rows of n quads give 6 * rows * n indices. |
| Shapes.Quad | shapes.js:56-60 | Definition: with a = lat * (n + 1) + lon and b = a + n + 1, the triangles (a, b, a + 1) and (b, b + 1, a + 1). |
| Shapes.QuadRange | shapes.js:56-60 | The six indices of quad (lat, lon) lie in rows lat and lat + 1. |
| Shapes.SphereIndicesRange | shapes.js:54-62 | Every index is below (rows + 1) * (n + 1), the number of vertices. |
| Shapes.SphereVertexLoop | shapes.js:37-52 | The vertex loops produce `SphereVertices`, and the normals equal the vertices. |
| Shapes.SphereIndexLoop | shapes.js:54-62 | The index loops produce `SphereIndices`. |
| Shapes.CreateSphere | shapes.js:34-65 | Vertices and normals are equal, each 3 * (L + 1) * (N + 1) long. There are 3 * (2 * L * N) indices, i.e. whole triangles, and each is below (L + 1) * (N + 1). |
| Shapes.RingVertices | shapes.js:72-75 | Definition: for ring i at angle a, the bottom point (cos a, -1, sin a) and the top point (cos a, 1, sin a). |
| Shapes.RingNormals | shapes.js:72-76 | Definition: both points of ring i share the horizontal normal (cos a, 0, sin a). |
| Shapes.SideQuad | shapes.js:79-83 | Definition: with a = 2i and b = a + 2, the triangles (a, a + 1, b + 1) and (a, b + 1, b). |
| Shapes.CylinderIndicesRange | shapes.js:79-83 | Every index of the first S side quads is below 2 * (S + 1). |
| Shapes.CylinderVertexAt | shapes.js:72-77 | Vertex 2i is the bottom point of ring i and vertex 2i + 1 its top point. |
| Shapes.CylinderNormalsHorizontal | shapes.js:72-77 | Each normal is its vertex with the height set to 0. |
| Shapes.CreateCylinder | shapes.js:68-86 | 6 * (S + 1) vertex numbers and as many normal numbers, and 3 * (2 * S) indices, each below 2 * (S + 1). |

## Left out

- Float32 rounding. Matrices, vectors and mesh coordinates are exact reals. The 1e-8 singularity threshold is compared exactly, and no error bounds are attempted.
- Math.tan, Math.cos, Math.sin and Math.hypot are not computed.
  - `Perspective` takes f = 1 / tan(fov / 2).
  - The rotations take the cosine and sine of the angle.
  - The camera takes a `Trig` value, whose angles are in degrees with the multiplication by pi / 180 folded in.
  - The meshes take a `BandTrig` value per family of angles, indexed by the loop counter.
  - Facts about these functions are preconditions (`Sound`, cos^2 + sin^2 = 1), not theorems.
- Transformations.Perspective: requires aspect != 0 and near != far. The source divides unguarded and returns Infinity or NaN entries there.
- Transformations.Ortho: requires left != right, bottom != top and near != far, for the same reason.
- FlyCamera.Normalize: requires a non-zero length. The source returns NaN for the zero vector. `UpdateVectors` is proved never to hit that case.
- Transformations.InverseRight: proved only for affine matrices (bottom row 0 0 0 1). The source ignores entries 3, 7, 11 and 15 and inverts only the upper 3x3 block and the translation, so projective matrices are not inverted.
- Transformations.InverseLeft: proved only for affine matrices, for the same reason.
- The `console.warn` call on a singular matrix is a logging side effect. Only the identity fallback is modelled.
- Shapes.CreateSphere: band counts are natural numbers. A negative count, which makes the JavaScript loops run zero times, is not modelled. Neither is the 0 / 0 angle a zero count produces.
- Shapes.CreateCylinder: the segment count is a natural number, with the same two exclusions.
- The default arguments (32 bands, 32 segments) are not modelled; callers pass every count explicitly.
- FlyCamera.Camera.HandleKeyboard: the key table is a `map<string, bool>`. JavaScript truthiness of non-boolean values is not modelled.
- FlyCamera.Clamp: NaN inputs to Math.max and Math.min are not modelled.
- transformations.js and camera.js define no look-at view matrix and no `dot` or `subtract` vector helper. The model has no look-at or subtract. Its `Vectors.Dot` has no source counterpart and is used only in contracts (`Cross`, `Valid()`, `NormalizeUnit`, ...).
- main.js (shader loading, canvas, WebGL context, render loop) and gl.js (shader compilation, program linking, vertex array and buffer setup) are not part of this model.
