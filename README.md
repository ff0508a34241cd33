# Polyscope quantity bookkeeping, modelled in Dafny

Polyscope draws meshes, point clouds and the quantities attached to them:
scalars, vectors, normals, frames, texture coordinates and parameterizations.
Before anything reaches the GPU, every quantity class does some host-side
bookkeeping. This project models that bookkeeping and proves what it
produces.

- **Fan triangulation.** Each polygon face of degree D is split into a fan of
  D − 2 triangles from its first corner, and three entries per triangle are
  appended to every attribute buffer. The entries are read at corner indices
  (a running corner counter that advances by D per face), at vertex ids
  (`face[k]`) or at the face index. The `Fan` module states this once as a
  specification: `CornerIndices`, `FanVertices` and `FaceIndices` give the
  index read at every buffer slot, and `Gather` reads data at those indices.
  Every fill loop of the quantity classes is an imperative method proved to
  produce exactly the gathered sequence.
- **Order-preserving filters.** The tet vector buffers keep only the vectors
  the slice plane does not cut away. The frame and tet vector `writeToFile`
  write a row only for nonzero entries. The `Filter` module specifies the
  kept indices, and the lemmas prove that exactly the accepted entries are
  kept, each once, in their original order.
- **Per-quantity state.** Each quantity is a class with a cached GPU program
  (`program: ShaderProgram?`):
  - `Draw` builds the program only when none is cached, sets its uniforms and
    draws it;
  - a disabled quantity's `Draw` changes nothing;
  - `GeometryChanged`, `SetStyle` and a successful `SetTexture` drop the cache.

  The classes also cover constructor defaults, setter/getter round trips,
  style names and style dispatch, and the colormap range reset rules.
- **Shader-stage data model** (`gl/shaders.h`). This covers the texture-target
  names, the two `ShaderAttribute` constructors and the `POLYSCOPE_GLSL`
  `#version` prefix, with a parser proved to be its inverse.

The GPU program is the class `Render.ShaderProgram`. It records the shader
stages, attribute buffers, uniforms, textures, material and draw count that
the host hands it. Floats are modelled as exact reals and vectors as triples
of reals. Helpers from the rest of the library become parameters, because
their code is not part of this model:

| helper | parameter |
|---|---|
| `parent.interp` | `interp` |
| `mapper.map` (the affine remapper) | `mapVector` |
| `exp` | `exp` |
| `ScaledValue::asAbsolute` | `asAbsolute` |
| the slice-plane test | `beyond` |
| `glm::length`, `glm::length2` | `length`, `length2` |
| `getNextUniqueColor` | `nextColors`, `color` |
| the colour constants | `Palette` |
| `state::lengthScale` | `lengthScale` |
| `robustMinMax` | the constructor argument `dataRange` |
| the parent mesh's faces, vertices, face and tet centres, points and visible faces | values |

Each class has a `SetEnabled` method. It stands for the base-class
`setEnabled`, whose code is not part of this model.

## Model

| member | source | states |
|---|---|---|
| `Fan.FaceFan` | src/surface_texture_quantity.cpp:98-104 | A face of degree D emits 3·max(D − 2, 0) corner slots. |
| `Fan.FanCorners` | src/surface_texture_quantity.cpp:92-108 | The whole mesh emits 3·T slots, where T is the sum over faces of max(D − 2, 0). |
| `Fan.FaceFanBounds` | src/surface_texture_quantity.cpp:98-100 | Every slot a face emits is one of that face's own D corners. |
| `Fan.FanCornersBounds` | src/surface_texture_quantity.cpp:92-108 | Every emitted slot names a real face and one of its corners. |
| `Fan.CornerIndices` | src/surface_texture_quantity.cpp:91-108 | The corner-indexed read sequence has 3·T entries. |
| `Fan.FanVertices` | src/surface_normal_quantity.cpp:97-116 | The vertex-indexed read sequence has 3·T entries. |
| `Fan.FaceIndices` | src/surface_normal_quantity.cpp:177-197 | The face-indexed read sequence has 3·T entries. |
| `Fan.GatheredExtend` | src/surface_texture_quantity.cpp:102-104 | Pushing the next three gathered entries keeps the buffer a prefix of the full gather. |
| `Fan.GatheredWhole` | src/surface_texture_quantity.cpp:111 | A prefix as long as the read sequence is the full gather. |
| `Fan.FanCornersAt` | src/surface_texture_quantity.cpp:92-108 | Slot 3·(triangles of earlier faces + t) + p holds corner p of fan triangle t of face i. |
| `Fan.FanCornersLocate` | src/surface_texture_quantity.cpp:92-108 | Conversely, every slot belongs to exactly one face, fan triangle and position. |
| `Fan.PrefixNext` | src/surface_texture_quantity.cpp:107 | Each face advances the corner counter by its degree D and the triangle count by max(D − 2, 0). |
| `Fan.CornerTriangle` | src/surface_texture_quantity.cpp:97-104 | Triangle j of a face whose corner offset is c reads corners c, c + j and c + j + 1. |
| `Fan.VertexTriangle` | src/surface_normal_quantity.cpp:102-108 | Triangle j of a face reads vertex ids face[0], face[j] and face[(j + 1) % D]. |
| `Fan.FaceTriangle` | src/surface_normal_quantity.cpp:180-197 | All three entries of every triangle of face iF read the face data at iF. |
| `Fan.FanNeverWraps` | src/surface_texture_quantity.cpp:98-100 | Under the loop guard j + 1 < D, (j + 1) % D is j + 1 and never wraps. |
| `Fan.CornersPrefixBound` | src/surface_texture_quantity.cpp:91-107 | The counter at face i plus face i's degree never exceeds the total corner count. |
| `Fan.CornerIndicesInBlock` | src/surface_texture_quantity.cpp:97-100 | Every corner index read for face i lies in face i's own block [c, c + D). |
| `Fan.CornerIndicesInRange` | src/surface_texture_quantity.cpp:97-104 | Corner data with one entry per corner covers every index the fill reads. |
| `Fan.DegenerateFaceEmitsNothing` | src/surface_texture_quantity.cpp:107 | A face of degree below 3 emits nothing, yet the corner counter still advances by its degree. |
| `Fan.FanVerticesInRange` | src/surface_normal_quantity.cpp:102-108 | Faces whose vertex ids are below n make every vertex read fall below n. |
| `Fan.FaceIndicesInRange` | src/surface_normal_quantity.cpp:180 | Face data with one entry per face covers every face index read. |
| `Filter.Selected` | src/tet_vector_quantity.cpp:69-75 | A filter keeps at most as many entries as it walks. |
| `Filter.SelectedNext` | src/tet_vector_quantity.cpp:70-74 | Walking one more entry appends its index exactly when the test accepts it. |
| `Filter.SelectedExactly` | src/tet_vector_quantity.cpp:69-75 | Exactly the accepted indices are kept, each once, in increasing order. |
| `Filter.SelectedAll` | src/tet_vector_quantity.cpp:71 | A test that accepts everything keeps every index, in order. |
| `Geometry.BaryCoords` | src/surface_normal_quantity.cpp:118-122 | The barycentric buffer of T triangles has 3·T entries. |
| `Geometry.BaryCoordsNext` | src/surface_normal_quantity.cpp:118-122 | One more triangle appends (1,0,0), (0,1,0), (0,0,1). |
| `Geometry.Zeros` | src/surface_earth_quantity.cpp:21-23 | The default scale factors are n zeros. |
| `Geometry.Mapped` | src/tet_vector_quantity.cpp:72 | Mapping vectors through the remapper keeps their number. |
| `Shaders.TargetName` | include/polyscope/gl/shaders.h:72-87 | "Cube", "OneD" and "TwoD" name exactly the targets 0, 1 and 2; every other target value gives "Unrecognized texture target". |
| `Shaders.SingleAttribute` | include/polyscope/gl/shaders.h:26 | The two-argument constructor keeps the name and type and sets arrayCount to 1. |
| `Shaders.ArrayAttribute` | include/polyscope/gl/shaders.h:27-28 | The three-argument constructor keeps the name, type and arrayCount unchanged. |
| `Shaders.SingleIsArrayOfOne` | include/polyscope/gl/shaders.h:26-28 | The two constructors agree exactly when the array count given is 1. |
| `Shaders.Glsl` | include/polyscope/gl/shaders.h:9 | The source is "#version ", then the version, then one line break, then the shader, and nothing else. |
| `Shaders.GlslRoundTrip` | include/polyscope/gl/shaders.h:9 | A version with no line break, prefixed as "#version " + version + "\n" + shader, parses back to the same version and shader. |
| `Shaders.ParseGlslSound` | include/polyscope/gl/shaders.h:9 | Every source the parser accepts is the prefixed form of what it returns. |
| `Render.ShaderProgram.constructor` | src/surface_texture_quantity.cpp:45-46 | A new program has its shader stages and no attributes, uniforms, textures, material or draws. |
| `Render.ShaderProgram.SetAttribute` | src/surface_texture_quantity.cpp:111 | Setting an attribute replaces that name's buffer and nothing else. |
| `Render.ShaderProgram.SetUniform` | src/surface_normal_quantity.cpp:28 | Setting a uniform replaces that name's value and nothing else. |
| `Render.ShaderProgram.SetTexture` | src/surface_texture_quantity.cpp:59 | Setting a texture replaces that name's binding and nothing else. |
| `Render.ShaderProgram.SetMaterial` | src/surface_texture_quantity.cpp:52 | The material is the one given. |
| `Render.ShaderProgram.Draw` | src/surface_texture_quantity.cpp:39 | Each draw adds one to the draw count. |
| `SurfaceTextureQuantity.FillColorBuffer` | src/surface_texture_quantity.cpp:87-112 | `a_tcoord` is the coordinates gathered at the fan's corner indices: 3·T entries, with (coords[c], coords[c + j], coords[c + j + 1]) for triangle j. |
| `SurfaceTextureQuantity.FillFace` | src/surface_texture_quantity.cpp:97-105 | One face appends its 3·max(D − 2, 0) corner coordinates and keeps the buffer a prefix of the gather. |
| `SurfaceTextureQuantity.NiceName` | src/surface_texture_quantity.cpp:85 | The name is the quantity's name followed by " (corner texture)". |
| `SurfaceTextureQuantity.TextureQuantity.constructor` | src/surface_texture_quantity.cpp:23-26 | Stores the name, faces, coordinates and data type; no image and no program. |
| `SurfaceTextureQuantity.TextureQuantity.CreateProgram` | src/surface_texture_quantity.cpp:42-53 | A fresh program with the texture shaders, the gathered `a_tcoord` buffer and material "wax". |
| `SurfaceTextureQuantity.TextureQuantity.Draw` | src/surface_texture_quantity.cpp:28-40 | Disabled: nothing changes. Enabled with a cached program: only the draw count (+1) and the textures change. Enabled with none: a fresh program with the texture shaders, no uniforms, the gathered `a_tcoord` buffer, "wax" and one draw. In both cases the textures become the previous ones with `t_image` bound to the image. |
| `SurfaceTextureQuantity.TextureQuantity.SetTexture` | src/surface_texture_quantity.cpp:74-81 | The loaded image is stored; a failed load is the error "Failed to load " + filename and keeps the program; a successful one drops it. |
| `SurfaceTextureQuantity.TextureQuantity.GeometryChanged` | src/surface_texture_quantity.cpp:83 | The cached program is dropped. |
| `SurfaceNormalQuantity.FillVertexNormalBuffers` | src/surface_normal_quantity.cpp:83-132 | Positions and normals are both gathered at the fan's vertex ids, so they have equal length 3·T. The barycentric buffer is (1,0,0), (0,1,0), (0,0,1) per triangle when the program declares `a_barycoord`, and empty otherwise. |
| `SurfaceNormalQuantity.FillVertexNormalFace` | src/surface_normal_quantity.cpp:97-123 | One face keeps all three buffers prefixes of their specifications. |
| `SurfaceNormalQuantity.VertexNormalTriangle` | src/surface_normal_quantity.cpp:104-122 | One fan triangle appends three positions, three normals and, when wanted, three barycentric entries. |
| `SurfaceNormalQuantity.FillFaceNormalBuffers` | src/surface_normal_quantity.cpp:164-214 | Positions are gathered at the vertex ids. Every normal of face iF's triangles is normalValues[iF]. The barycentric buffer is as for vertex normals. |
| `SurfaceNormalQuantity.FillFaceNormalFace` | src/surface_normal_quantity.cpp:177-204 | One face keeps all three buffers prefixes of their specifications. |
| `SurfaceNormalQuantity.FaceNormalTriangle` | src/surface_normal_quantity.cpp:185-203 | One fan triangle appends three positions, the face normal three times and, when wanted, three barycentric entries. |
| `SurfaceNormalQuantity.NiceName` | src/surface_normal_quantity.cpp:60 | The name is followed by " (vertex normal)" or " (face normal)". |
| `SurfaceNormalQuantity.DefinedOnName` | src/surface_normal_quantity.cpp:68 | The element name is "vertex" or "face", and it is "vertex" exactly for vertex normals. |
| `SurfaceNormalQuantity.NormalQuantity.Vertex` | src/surface_normal_quantity.cpp:66-70 | A vertex-normal quantity with its values and no program. |
| `SurfaceNormalQuantity.NormalQuantity.Face` | src/surface_normal_quantity.cpp:147-151 | A face-normal quantity with its values and no program. |
| `SurfaceNormalQuantity.NormalQuantity.CreateProgram` | src/surface_normal_quantity.cpp:72-81 | A fresh program with the surface shaders and the declared attribute names. It holds the fill's buffers, with `a_barycoord` only when the shaders declare it, no uniforms or textures, and the parent's material. |
| `SurfaceNormalQuantity.NormalQuantity.Draw` | src/surface_normal_quantity.cpp:19-33 | Disabled: nothing changes. Enabled with a cached program: only the draw count (+1) and the uniforms change. Enabled with none: a fresh program with the surface shaders, the fill's buffers, no textures, the parent's material and one draw. In both cases the uniforms become the previous ones with `u_basecolor` set to the surface colour. |
| `SurfaceNormalQuantity.NormalQuantity.GeometryChanged` | src/surface_normal_quantity.cpp:58 | The cached program is dropped. |
| `SurfaceEarthQuantity.CopyScaleFactors` | src/surface_earth_quantity.cpp:29-31 | The scale factors are the first \|values\| given ones. |
| `SurfaceEarthQuantity.ValueIndices` | src/surface_earth_quantity.cpp:116-132 | The index read at every slot: one per slot, 3·T in all. |
| `SurfaceEarthQuantity.Slotted` | src/surface_earth_quantity.cpp:134-144 | A texture-coordinate buffer has one entry per slot. |
| `SurfaceEarthQuantity.ScaleSlots` | src/surface_earth_quantity.cpp:150-152 | The scale-factor buffer has one entry per slot. |
| `SurfaceEarthQuantity.FillPositionBuffers` | src/surface_earth_quantity.cpp:96-163 | The five buffers are exactly the one-hot layout of the values and scale factors read at the fan's corner indices (corner data) or vertex ids (vertex data). |
| `SurfaceEarthQuantity.FillFace` | src/surface_earth_quantity.cpp:107-155 | One face advances the counter by D and keeps all five buffers prefixes of the layout. |
| `SurfaceEarthQuantity.EmitTriangle` | src/surface_earth_quantity.cpp:134-152 | One triangle appends three entries to every buffer and keeps them prefixes of the layout. |
| `SurfaceEarthQuantity.ReadTriangle` | src/surface_earth_quantity.cpp:116-132 | With corner data the values are read at c, c + j, c + j + 1; otherwise at face[0], face[j], face[(j + 1) % D]. |
| `SurfaceEarthQuantity.EarthPrefixExtend` | src/surface_earth_quantity.cpp:134-152 | Appending a triangle's one-hot entries keeps the buffers prefixes of the layout. |
| `SurfaceEarthQuantity.EarthPrefixWhole` | src/surface_earth_quantity.cpp:158-162 | Buffers filled to full length are the layout. |
| `SurfaceEarthQuantity.OneHotSum` | src/surface_earth_quantity.cpp:134-144 | The three one-hot entries of a slot add up to its value. |
| `SurfaceEarthQuantity.OneHotPartition` | src/surface_earth_quantity.cpp:134-144 | texCoordK holds the slot's value at position K of each triple and zero elsewhere, and the three buffers add up to the values read. |
| `SurfaceEarthQuantity.ScaleFactorByBarycentric` | src/surface_earth_quantity.cpp:146-152 | The barycentric entries are (1,0,0), (0,1,0), (0,0,1), and each slot's scale factor is its scale entry dotted with its barycentric entry. |
| `SurfaceEarthQuantity.FlagUniform` | src/surface_earth_quantity.cpp:51 | `u_projectiveInterpolate` is 1 exactly when the flag is set and 0 exactly when it is not. |
| `SurfaceEarthQuantity.NiceName` | src/surface_earth_quantity.cpp:168 | The name is returned unchanged. |
| `SurfaceEarthQuantity.EarthQuantity.Plain` | src/surface_earth_quantity.cpp:18-24 | One zero scale factor per value; vertex data; projective interpolation on. The data type defaults to STANDARD. |
| `SurfaceEarthQuantity.EarthQuantity.WithScaleFactors` | src/surface_earth_quantity.cpp:26-32 | The first \|values\| scale factors given; vertex data. The data type defaults to STANDARD. |
| `SurfaceEarthQuantity.EarthQuantity.WithCornerData` | src/surface_earth_quantity.cpp:34-40 | As above, with the corner-data flag given. |
| `SurfaceEarthQuantity.EarthQuantity.SetProjectiveInterpolate` | include/polyscope/surface_earth_quantity.h:32 | The flag is the one given. |
| `SurfaceEarthQuantity.EarthQuantity.CreateProgram` | src/surface_earth_quantity.cpp:83-93 | A fresh program with the earth shaders, the five buffers of the fill, no uniforms or textures, and material "wax". |
| `SurfaceEarthQuantity.EarthQuantity.Draw` | src/surface_earth_quantity.cpp:42-54 | Disabled: nothing changes. Enabled with a cached program: only the draw count (+1) and the uniforms change. Enabled with none: a fresh program with the earth shaders, the five buffers, no textures, "wax" and one draw. In both cases the uniforms become the previous ones with `u_projectiveInterpolate` set to the flag as 0 or 1. |
| `SurfaceEarthQuantity.EarthQuantity.GeometryChanged` | src/surface_earth_quantity.cpp:81 | The cached program is dropped. |
| `SurfaceProjectiveParameterizationQuantity.StyleNamed` | src/surface_projective_parameterization_quantity.cpp:118-134 | Whatever style is found for a name is named by it. |
| `SurfaceProjectiveParameterizationQuantity.StyleName` | src/surface_projective_parameterization_quantity.cpp:118-134 | Every style is named "checker", "grid", "local grid" or "local dist". |
| `SurfaceProjectiveParameterizationQuantity.StyleNameRoundTrip` | src/surface_projective_parameterization_quantity.cpp:118-134 | Every style is found again from its name ("checker", "grid", "local grid", "local dist"). |
| `SurfaceProjectiveParameterizationQuantity.StyleNameInjective` | src/surface_projective_parameterization_quantity.cpp:118-134 | Two styles have the same name exactly when they are the same style. |
| `SurfaceProjectiveParameterizationQuantity.FragShaderInjective` | src/surface_projective_parameterization_quantity.cpp:57-76 | Each style has a fragment shader of its own. |
| `SurfaceProjectiveParameterizationQuantity.FragShader` | src/surface_projective_parameterization_quantity.cpp:57-76 | A style's fragment shader is never the vertex shader. |
| `SurfaceProjectiveParameterizationQuantity.UsesColormap` | src/surface_projective_parameterization_quantity.cpp:66-75 | The colormap texture is bound exactly for the styles whose name starts with "local ". |
| `SurfaceProjectiveParameterizationQuantity.ModLenUniform` | src/surface_projective_parameterization_quantity.cpp:90-97 | `u_modLen` is modLen for UNIT coordinates, and also when the length scale is 1. For WORLD coordinates it is modLen × lengthScale. |
| `SurfaceProjectiveParameterizationQuantity.WithParamUniforms` | src/surface_projective_parameterization_quantity.cpp:87-114 | The uniforms after a draw are the previous ones plus `u_modLen` and the style's own names. Every other uniform keeps its value. |
| `SurfaceProjectiveParameterizationQuantity.ParamUniformsByStyle` | src/surface_projective_parameterization_quantity.cpp:87-114 | `u_modLen` is modLen for UNIT and modLen × lengthScale for WORLD. CHECKER sets the two checker colours, GRID the line and background colours, and the local styles only `u_angle`. No other uniform changes. |
| `SurfaceProjectiveParameterizationQuantity.TexCoords` | src/surface_projective_parameterization_quantity.cpp:241-250 | One texture coordinate per corner read. |
| `SurfaceProjectiveParameterizationQuantity.AffineTexCoords` | src/surface_projective_parameterization_quantity.cpp:244-250 | Without projective interpolation, and given exp(0) = 1, every entry is (u, v, 1). |
| `SurfaceProjectiveParameterizationQuantity.FillPositionBuffers` | src/surface_projective_parameterization_quantity.cpp:224-261 | `a_texture_coord` is the projected coordinate of every corner read at c, c + j and c + j + 1: 3·T entries. |
| `SurfaceProjectiveParameterizationQuantity.FillFace` | src/surface_projective_parameterization_quantity.cpp:231-257 | One face appends its 3·max(D − 2, 0) entries and keeps the buffer a prefix of the specification. |
| `SurfaceProjectiveParameterizationQuantity.FillTriangle` | src/surface_projective_parameterization_quantity.cpp:237-255 | One fan triangle appends its three projected corners. |
| `SurfaceProjectiveParameterizationQuantity.TexPrefixExtend` | src/surface_projective_parameterization_quantity.cpp:248-254 | Appending the next three projected corners keeps the buffer a prefix. |
| `SurfaceProjectiveParameterizationQuantity.TexPrefixWhole` | src/surface_projective_parameterization_quantity.cpp:260 | A full-length prefix is the whole buffer. |
| `SurfaceProjectiveParameterizationQuantity.NiceName` | src/surface_projective_parameterization_quantity.cpp:222 | The name is followed by " (corner parameterization)". |
| `SurfaceProjectiveParameterizationQuantity.NewProgram` | src/surface_projective_parameterization_quantity.cpp:54-83 | The style's shaders. The colormap texture is bound only for LOCAL_CHECK and LOCAL_RAD. Also the texture coordinates and material "wax". |
| `SurfaceProjectiveParameterizationQuantity.ParameterizationQuantity.constructor` | src/surface_projective_parameterization_quantity.cpp:207-214 | One zero scale factor per coordinate. The colormap is "phase", the checker colours are pink and light pink, the grid is white on pink and the angle is 0. |
| `SurfaceProjectiveParameterizationQuantity.ParameterizationQuantity.WithScaleFactors` | src/surface_projective_parameterization_quantity.cpp:216-220 | The scale factors as given, and the same colour defaults. |
| `SurfaceProjectiveParameterizationQuantity.ParameterizationQuantity.CreateProgram` | src/surface_projective_parameterization_quantity.cpp:54-83 | A fresh program of the current style. The colormap texture is bound only for the local styles. The fill's texture coordinates and "wax" are set. |
| `SurfaceProjectiveParameterizationQuantity.ParameterizationQuantity.SetProgramUniforms` | src/surface_projective_parameterization_quantity.cpp:87-114 | The program's uniforms become the period and the uniforms of the current style. |
| `SurfaceProjectiveParameterizationQuantity.ParameterizationQuantity.Draw` | src/surface_projective_parameterization_quantity.cpp:40-52 | Disabled: nothing changes. Enabled with a cached program: only the draw count (+1) and the uniforms change. Enabled with none: a fresh program of the current style, with the colormap texture only for the local styles, the fill's texture coordinates, "wax" and one draw. In both cases the uniforms become the period and the style's uniforms on top of the previous ones. |
| `SurfaceProjectiveParameterizationQuantity.ParameterizationQuantity.SetStyle` | src/surface_projective_parameterization_quantity.cpp:193-198 | The style is the new one and the cached program is dropped. |
| `SurfaceProjectiveParameterizationQuantity.ParameterizationQuantity.GeometryChanged` | src/surface_projective_parameterization_quantity.cpp:200 | The cached program is dropped. |
| `TetScalarQuantity.ResetRange` | src/tet_scalar_quantity.cpp:60-73 | The symmetric range is (−m, m), with m one of the absolute values of the ends, and it contains the data range. |
| `TetScalarQuantity.SymmetricRangeTightest` | src/tet_scalar_quantity.cpp:66-69 | For a well-formed data range, no narrower range centred on 0 contains it. |
| `TetScalarQuantity.ResetRangeEnds` | src/tet_scalar_quantity.cpp:61-72 | STANDARD gives the data range itself. MAGNITUDE gives (0, hi). |
| `TetScalarQuantity.Interpolated` | src/tet_scalar_quantity.cpp:182-185 | One interpolated value per point. |
| `TetScalarQuantity.FillVertexColors` | src/tet_scalar_quantity.cpp:173-196 | `a_colorval` holds interp at face[0], face[j] and face[j + 1] for every fan triangle of the visible faces: 3·T values. |
| `TetScalarQuantity.FillVertexFace` | src/tet_scalar_quantity.cpp:177-190 | One visible face appends its interpolated corners and keeps the buffer a prefix. |
| `TetScalarQuantity.FillFaceColors` | src/tet_scalar_quantity.cpp:235-260 | `a_colorval` holds values[iF] three times for every fan triangle of visible face iF. |
| `TetScalarQuantity.FillFaceFace` | src/tet_scalar_quantity.cpp:241-254 | One visible face appends its value three times per triangle and keeps the buffer a prefix. |
| `TetScalarQuantity.NiceName` | src/tet_scalar_quantity.cpp:130 | The name is followed by " (vertex scalar)" or " (face scalar)". |
| `TetScalarQuantity.DefinedOnName` | src/tet_scalar_quantity.cpp:138 | The element name is "vertex" or "face", and it is "vertex" exactly for vertex scalars. |
| `TetScalarQuantity.ScalarQuantity.Vertex` | src/tet_scalar_quantity.cpp:136-146 | The colormap starts at the data type's default, and the map range is reset from the data range. The data type defaults to STANDARD. |
| `TetScalarQuantity.ScalarQuantity.Face` | src/tet_scalar_quantity.cpp:212-222 | Same as the vertex constructor, for faces. The data type defaults to STANDARD. |
| `TetScalarQuantity.ScalarQuantity.SetColorMap` | src/tet_scalar_quantity.cpp:34-40 | `GetColorMap` afterwards returns the colormap set. |
| `TetScalarQuantity.ScalarQuantity.SetMapRange` | src/tet_scalar_quantity.cpp:42-47 | `GetMapRange` afterwards returns the range set. |
| `TetScalarQuantity.ScalarQuantity.ResetMapRange` | src/tet_scalar_quantity.cpp:60-77 | The map range is the reset rule applied to the data range. |
| `TetScalarQuantity.ScalarQuantity.CreateProgram` | src/tet_scalar_quantity.cpp:148-157 | A fresh program with the fill's colours, the colormap texture and the parent's material. |
| `TetScalarQuantity.ScalarQuantity.Draw` | src/tet_scalar_quantity.cpp:19-31 | Disabled: nothing changes. Enabled with a cached program: only the draw count (+1) and the uniforms change. Enabled with none: a fresh program with the scalar shaders, the fill's colours, the colormap texture, the parent's material and one draw. In both cases the uniforms become the previous ones with `u_rangeLow` and `u_rangeHigh` set to the map range. |
| `TetScalarQuantity.ScalarQuantity.GeometryChanged` | src/tet_scalar_quantity.cpp:32 | The cached program is dropped. |
| `TetVectorQuantity.SkipPosition` | src/tet_vector_quantity.cpp:83-97 | A vertex vector is tested at one of the vertices. A face or tet vector is tested at one of the tet centres. |
| `TetVectorQuantity.FaceSkipFollowsTet` | src/tet_vector_quantity.cpp:88-97 | Face 4t + k is tested at the centre of tet t, so it is hidden exactly when a vector on tet t would be. |
| `TetVectorQuantity.KeepFlags` | src/tet_vector_quantity.cpp:71 | One keep decision per vector. |
| `TetVectorQuantity.FilterBuffers` | src/tet_vector_quantity.cpp:69-75 | The buffers are the mapped vectors and the roots of exactly the kept indices, in order. |
| `TetVectorQuantity.FilterStep` | src/tet_vector_quantity.cpp:70-74 | Each loop step appends the vector's mapped value and its root exactly when it is kept. |
| `TetVectorQuantity.KeptExactly` | src/tet_vector_quantity.cpp:69-75 | Vector i is kept exactly when `!hideWithMesh \|\| !skipVector(i)`, and the kept indices are in increasing order. |
| `TetVectorQuantity.ShownKeepsAll` | src/tet_vector_quantity.cpp:71 | When the quantity does not hide with the mesh, the buffers hold every mapped vector and every root, in order. |
| `TetVectorQuantity.LengthMultUniform` | src/tet_vector_quantity.cpp:52-56 | `u_lengthMult` is 1.0 for AMBIENT vectors and the absolute length setting for the others. |
| `TetVectorQuantity.WrittenIndices` | src/tet_vector_quantity.cpp:197-201 | Every written row is a valid vector index whose vector has positive length. |
| `TetVectorQuantity.WrittenExactly` | src/tet_vector_quantity.cpp:197-201 | `writeToFile` writes row i exactly when vector i has positive length, in order. |
| `TetVectorQuantity.ResizedRoots` | src/tet_vector_quantity.cpp:247-253 | The resized roots hold, at each index, that element's centre. |
| `TetVectorQuantity.NiceName` | src/tet_vector_quantity.cpp:236-309 | The name is followed by " (vertex vector)", " (face vector)" or " (tet vector)". |
| `TetVectorQuantity.VectorQuantity.Vertex` | src/tet_vector_quantity.cpp:210-220 | The vectors are a copy of the field and the roots are the vertices. Defaults: length 1.0 absolute for AMBIENT and 0.02 relative otherwise; radius 0.0025 relative; material "clay"; ribbons off; hidden with the mesh. The vector type defaults to STANDARD. |
| `TetVectorQuantity.VectorQuantity.Face` | src/tet_vector_quantity.cpp:242-256 | The vectors are a copy of the field; the roots have one entry per face and hold the face centres. Same defaults. The vector type defaults to STANDARD. |
| `TetVectorQuantity.VectorQuantity.Tet` | src/tet_vector_quantity.cpp:278-293 | The vectors are a copy of the field and the roots are the tet centres. Same defaults. The vector type defaults to STANDARD. |
| `TetVectorQuantity.VectorQuantity.Kept` | src/tet_vector_quantity.cpp:69-75 | Every kept index is a valid index of both the vectors and the roots. |
| `TetVectorQuantity.VectorQuantity.PrepareProgram` | src/tet_vector_quantity.cpp:63-81 | A fresh program with the three vector stages, the filtered `a_vector` and `a_position` buffers and the quantity's material. |
| `TetVectorQuantity.VectorQuantity.Draw` | src/tet_vector_quantity.cpp:39-59 | Disabled: nothing changes. Enabled with a cached program: only the draw count (+1) and the uniforms change. Enabled with none: a fresh program with the three vector stages, the filtered buffers, no textures, the quantity's material and one draw. In both cases the uniforms become the previous ones with `u_radius` and `u_baseColor` set, and `u_lengthMult` 1.0 for AMBIENT and the absolute length setting otherwise. |
| `TetVectorQuantity.VectorQuantity.GeometryChanged` | src/tet_vector_quantity.cpp:61 | The cached program is dropped. |
| `TetVectorQuantity.VectorQuantity.SetVectorLengthScale` | src/tet_vector_quantity.cpp:142-147 | Stores the length setting and returns the quantity itself. `GetVectorLengthScale` afterwards returns the new setting made absolute. The setting is relative unless stated otherwise. |
| `TetVectorQuantity.VectorQuantity.SetVectorRadius` | src/tet_vector_quantity.cpp:149-154 | Stores the radius setting and returns the quantity itself. `GetVectorRadius` afterwards returns the new setting made absolute. The setting is relative unless stated otherwise. |
| `TetVectorQuantity.VectorQuantity.SetVectorColor` | src/tet_vector_quantity.cpp:156-161 | `GetVectorColor` afterwards returns the colour; the quantity itself is returned. |
| `TetVectorQuantity.VectorQuantity.SetMaterial` | src/tet_vector_quantity.cpp:163-170 | `GetMaterial` afterwards returns the material. A cached program receives it, and its attributes, uniforms, textures and draw count are unchanged. The quantity itself is returned. |
| `TetVectorQuantity.VectorQuantity.SetRibbonEnabled` | src/tet_vector_quantity.cpp:172-177 | `IsRibbonEnabled` afterwards returns the flag; the quantity itself is returned. |
| `PointCloudFrameQuantity.DecimalRoundTrip` | src/point_cloud_frame_quantity.cpp:27-29 | The counts printed in the size-check message read back as the counts. |
| `PointCloudFrameQuantity.SizeCheck` | src/point_cloud_frame_quantity.cpp:26-30 | An error is reported exactly when the frame count differs from the point count. |
| `PointCloudFrameQuantity.Flattened` | src/point_cloud_frame_quantity.cpp:32-38 | The flat list has 3n vectors. |
| `PointCloudFrameQuantity.Unflatten` | src/point_cloud_frame_quantity.cpp:32-38 | Regrouping by three gives one frame per three vectors. |
| `PointCloudFrameQuantity.UnflattenFlattened` | src/point_cloud_frame_quantity.cpp:32-38 | Regrouping the flat list gives the frames back, so flattening loses nothing. |
| `PointCloudFrameQuantity.FlattenedAt` | src/point_cloud_frame_quantity.cpp:34-38 | Entry 3i + k of the flat list is f[k] of frame i. |
| `PointCloudFrameQuantity.FlattenFrames` | src/point_cloud_frame_quantity.cpp:32-38 | The constructor loop builds exactly the flat list. |
| `PointCloudFrameQuantity.AxisVectors` | src/point_cloud_frame_quantity.cpp:101-104 | One vector per frame for each axis. |
| `PointCloudFrameQuantity.MapFrames` | src/point_cloud_frame_quantity.cpp:98-105 | The three buffers are the mapped f[0], f[1] and f[2] of every frame, each of length n, in frame order. |
| `PointCloudFrameQuantity.AxisVectorsFlattened` | src/point_cloud_frame_quantity.cpp:101-104 | The per-axis buffers and the flat list hold the same vectors. |
| `PointCloudFrameQuantity.LengthMultUniform` | src/point_cloud_frame_quantity.cpp:84-88 | `u_lengthMult` is 1.0 for AMBIENT frames and lengthMult × lengthScale for the others. |
| `PointCloudFrameQuantity.DrawUniforms` | src/point_cloud_frame_quantity.cpp:72-88 | The uniforms after a draw are the previous ones plus the six draw uniforms, and no other uniform changes. In cross mode the three axis colours are equal. |
| `PointCloudFrameQuantity.DrawUniformsByMode` | src/point_cloud_frame_quantity.cpp:72-88 | `u_radius` is radiusMult × lengthScale. In cross mode all three colours are frameColors[0]; otherwise they are [0], [1] and [2]. `u_cross` is the flag. `u_lengthMult` is 1.0 for AMBIENT and lengthMult × lengthScale otherwise. No other uniform changes. |
| `PointCloudFrameQuantity.RowWritten` | src/point_cloud_frame_quantity.cpp:182 | A frame's row is written exactly when one of its axes 0, 1 and 2 has positive squared length. |
| `PointCloudFrameQuantity.WrittenIndices` | src/point_cloud_frame_quantity.cpp:181-185 | Every written row is a valid frame index whose frame passes the row test. |
| `PointCloudFrameQuantity.WrittenExactly` | src/point_cloud_frame_quantity.cpp:181-185 | `writeToFile` writes frame i's row exactly when one of its three vectors has positive squared length, in frame order. |
| `PointCloudFrameQuantity.NiceName` | src/point_cloud_frame_quantity.cpp:190 | The name is followed by " (frame)". |
| `PointCloudFrameQuantity.FrameQuantity.constructor` | src/point_cloud_frame_quantity.cpp:21-60 | Runs the size check and builds the flat list. lengthMult is 0.02 unless AMBIENT, where it is 1.0; radiusMult is 0.0005. frameColors[0] is the next colour, and [1] and [2] are the following ones except in cross mode. Cross mode defaults to off and the vector type to STANDARD. |
| `PointCloudFrameQuantity.FrameQuantity.CreateProgram` | src/point_cloud_frame_quantity.cpp:93-113 | A fresh program with the three mapped axis buffers, the points as `a_position`, and "wax". |
| `PointCloudFrameQuantity.FrameQuantity.Draw` | src/point_cloud_frame_quantity.cpp:62-91 | Disabled: nothing changes. Enabled with a cached program: only the draw count (+1) and the uniforms change. Enabled with none: a fresh program with the frame stages, the three mapped axis buffers and the points, no textures, "wax" and one draw. In both cases the uniforms become the draw uniforms on top of the previous ones. |
| `PointCloudFrameQuantity.FrameQuantity.SetDrawUniforms` | src/point_cloud_frame_quantity.cpp:72-88 | The program's uniforms become the draw uniforms for the quantity's mode and vector type. |
| `PointCloudFrameQuantity.FrameQuantity.GeometryChanged` | src/point_cloud_frame_quantity.cpp:115 | The cached program is dropped. |

## Left out

- GLSL shader bodies and the shaders' uniform and attribute tables. They are GPU code and static data. Shader stages appear only by name.
- Every ImGui user interface (`buildCustomUI`, `buildPickUI`, the `build*InfoGUI` methods). The state they change is reached through the setters that exist (`SetStyle`, `SetColorMap`, `SetProjectiveInterpolate`, `GeometryChanged`). Three controls have no setter here:
  - the projective period slider, the angle slider and the interpolate checkbox;
  - the tet vector hide-with-mesh checkbox;
  - the frame colour and size sliders.
- File and image input and output are left out:
  - `stbi_load`: the loaded image is a parameter of `SetTexture`;
  - the earth quantity's `setProgramTextures`, which loads six cube-map images from fixed paths and throws when one fails (src/surface_earth_quantity.cpp:57-77), so the earth program carries no texture here;
  - `promptForFilename`;
  - the bodies of every `writeToFile` apart from the row filters of the frame and tet vector quantities. That includes the warnings and the "not implemented" exceptions of the normal, earth and tet scalar versions.
- The engine calls `setTransformUniforms` and `parent.fillGeometryBuffers` are left out: they write buffers and uniforms of the parent mesh, whose code is not part of this model.
- `requestRedraw`, the histogram (`hist`), the vector `ribbonArtist` and `prepareVectorMapper` are left out. The remapper they build is the `mapVector` parameter.
- Floating point: values are exact reals, so the narrowing of scale factors to `float` (src/surface_earth_quantity.cpp:30,38) and of `vizRange` to `float` is not modelled.
- `exp(-sf)`, vector lengths, dot products and the slice plane are parameters, so nothing about IEEE arithmetic is modelled.
- Initial values the source never assigns are left arbitrary in the model:
  - the base class's `enabled`;
  - the projective `vizStyle` and `modLen`, which the source keeps in persistent values outside this model;
  - the frame quantity's `frameColors[1]` and `frameColors[2]` in cross mode. `PointCloudFrameQuantity.FrameQuantity.constructor` therefore states those two colours only outside cross mode.
- `TetScalarQuantity.ScalarQuantity.SetMapRange` stores the range as exact reals. The source narrows it to `float` (include/polyscope/tet_scalar_quantity.h:43).
- `SurfaceEarthQuantity.EarthQuantity.WithScaleFactors` and `SurfaceEarthQuantity.EarthQuantity.WithCornerData` require at least one given scale factor per value, because the source reads that many. The source does not check this.
- Some headers disagree with their `.cpp`, and the model follows the `.cpp` bodies:
  - include/polyscope/point_cloud_frame_quantity.h:50-66 declares `frameLengthMult`, `frameColorX` and three programs, while the `.cpp` uses `lengthMult`, `radiusMult`, `frameColors` and one `program`;
  - include/polyscope/surface_projective_parameterization_quantity.h:21 declares a constructor taking a style, while the `.cpp` constructor takes none;
  - the projective header names the period `checkerSize`, while the `.cpp` calls it `modLen`.
- The projective setters that the header declares but no source file defines are not modelled.
- The frame setters and getters that the header declares but no source file defines (`setFrameLengthScale`, `setFrameRadius`, `setFrameColors`, `setMaterial` and their getters, include/polyscope/point_cloud_frame_quantity.h:31-44) are not modelled.
- The projective `CreateProgram` fills the texture coordinates before it builds the program, while the source builds the program first. Both record the same program.
- The tet-vector quantity constructor tags tet data as `MeshElement::CORNER` (src/tet_vector_quantity.cpp:281). The model names the element `Tet`; only the `skipVector` rule depends on it, and that rule follows the subclass.
- The face scalar fill also interpolates at the face corners and discards the results (src/tet_scalar_quantity.cpp:246-249). `TetScalarQuantity.FillFaceFace` keeps those reads as unused locals. Because `face[0]` is read for every visible face, the fill requires that no visible face is empty.
- The face scalar fill's console message "NOT FACE COLORS IMPLEMENTED YET" (src/tet_scalar_quantity.cpp:237) is console output and is not modelled.
- `styleName` throws for a style value outside the four named ones (src/surface_projective_parameterization_quantity.cpp:133). `ParamVizStyle` has exactly four constructors, so that error cannot arise in the model.
- `misc/generate_colormap_constant.py` is an offline script and is not part of this model.
